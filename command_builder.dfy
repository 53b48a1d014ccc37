/**
 * The command executor of `command_builder.rs`: an `Executer` with a fixed
 * display flag and an output sink, which runs one shell command string at a
 * time, either through `echo` (display mode) or through `sh -c` (run mode).
 *
 * The operating system is an oracle: a `World` answers each process
 * invocation with either a spawn failure or the child's standard output and
 * its success flag. The sink is an object whose writes may fail.
 */
module CommandBuilder {
  import opened Results

  /** An opaque `std::io::Error` raised when a process cannot be spawned. */
  datatype IoError = IoError(code: int)

  /** `CommandError`: the three ways one `execute` call can fail. */
  datatype CommandError =
    | ExecutionError(err: IoError, command: string)
    | Failed(command: string)
    | PipeOutput

  /** A process to start: the program and its argument list (`std::process::Command`). */
  datatype Invocation = Invocation(program: string, args: seq<string>)
  {
    /** `Command::arg`: appends one argument, passed as is. */
    function Arg(a: string): Invocation
    {
      Invocation(program, args + [a])
    }
  }

  /** What the operating system reports for one invocation. */
  datatype ProcessOutcome =
    | SpawnFailed(err: IoError)
    | Exited(stdout: string, success: bool)

  /** The oracle standing for process creation and the programs it runs. */
  type World = Invocation -> ProcessOutcome

  /** A world in which `echo` with one argument prints that argument and a newline, and succeeds. */
  ghost predicate EchoPrintsItsArgument(world: World) {
    forall inv: Invocation ::
      inv.program == "echo" && |inv.args| == 1 ==> world(inv) == Exited(inv.args[0] + "\n", true)
  }

  /**
   * The writer behind an `Executer`: the process's standard output (which
   * selects the streaming `execute`), a growable buffer such as `Vec<u8>`, or
   * a fixed-size buffer such as `&mut [u8]`, whose `write_all` fills what room
   * is left and then fails.
   */
  datatype SinkKind = Stdout | Growable | Fixed(capacity: nat)

  /** The outcome of one `write_all`: whether it succeeded, and the sink's contents afterwards. */
  datatype WriteOutcome = WriteOutcome(ok: bool, data: string)

  /** `write_all(bytes)` on a sink of the given kind holding `data`. */
  function Written(kind: SinkKind, data: string, bytes: string): (w: WriteOutcome)
    ensures w.ok <==> !kind.Fixed? || bytes == [] || |data| + |bytes| <= kind.capacity
    ensures w.ok ==> w.data == data + bytes
    ensures !w.ok ==> |data| <= |w.data| < |data| + |bytes| && w.data == data + bytes[..|w.data| - |data|]
    ensures kind.Fixed? && |data| <= kind.capacity ==> |w.data| <= kind.capacity
  {
    if kind.Fixed? && bytes != [] && |data| + |bytes| > kind.capacity then
      var room := if |data| < kind.capacity then kind.capacity - |data| else 0;
      WriteOutcome(false, data + bytes[..room])
    else
      WriteOutcome(true, data + bytes)
  }

  /** A sink: its kind is fixed, its contents grow by writes. */
  class Sink {
    const kind: SinkKind
    var data: string

    ghost predicate Valid()
      reads this
    {
      kind.Fixed? ==> |data| <= kind.capacity
    }

    constructor (kind: SinkKind)
      ensures Valid()
      ensures this.kind == kind && data == []
    {
      this.kind := kind;
      data := [];
    }

    /** `Write::write_all`. */
    method WriteAll(bytes: string) returns (ok: bool)
      requires Valid()
      modifies this
      ensures Valid()
      ensures WriteOutcome(ok, data) == Written(kind, old(data), bytes)
    {
      var w := Written(kind, data, bytes);
      ok, data := w.ok, w.data;
    }
  }

  /** `generate_command`: `echo` in display mode, `sh -c` in run mode, before the command is added. */
  function GenerateCommand(display: bool): (c: Invocation)
  {
    if display then Invocation("echo", []) else Invocation("sh", []).Arg("-c")
  }

  /** The invocation `execute(command)` starts: the command text is its single last argument. */
  function InvocationFor(display: bool, command: string): Invocation
  {
    GenerateCommand(display).Arg(command)
  }

  /**
   * Display mode runs `echo` with the command as its single argument; run mode
   * runs `sh` with `-c` and then the command. Either way the command text is
   * passed whole, as the last argument, with no substitution.
   */
  lemma InvocationShape(display: bool, command: string)
    ensures var c := InvocationFor(display, command);
      && |c.args| > 0 && c.args[|c.args| - 1] == command
      && (display ==> c == Invocation("echo", [command]))
      && (!display ==> c == Invocation("sh", ["-c", command]))
  {
  }

  /** The result of one `execute` call and the sink's contents after it. */
  datatype Effect = Effect(result: Result<(), CommandError>, data: string)

  /**
   * One `execute(command)` by an executer with the given display flag and
   * sink. With a `Stdout` sink the child inherits the terminal and only its
   * status matters; with any other sink the child's output is written to the
   * sink first and its status examined afterwards.
   */
  function Executed(display: bool, kind: SinkKind, data: string, world: World, command: string): Effect
  {
    var outcome := world(InvocationFor(display, command));
    match outcome
    case SpawnFailed(err) => Effect(Err(ExecutionError(err, command)), data)
    case Exited(stdout, success) =>
      if kind.Stdout? then
        Effect(if success then Ok(()) else Err(Failed(command)), data)
      else
        var w := Written(kind, data, stdout);
        if !w.ok then Effect(Err(PipeOutput), w.data)
        else Effect(if success then Ok(()) else Err(Failed(command)), w.data)
  }

  /**
   * The error taxonomy of `execute`: it succeeds exactly when the process
   * spawned, its output reached the sink (when captured) and it exited
   * successfully; a spawn failure leaves the sink alone and names the command;
   * a failed write is `PipeOutput` whatever the exit status; a failed exit is
   * `Failed` with the command, and its output is already in the sink.
   */
  lemma ExecutedOutcomes(display: bool, kind: SinkKind, data: string, world: World, command: string)
    ensures var outcome := world(InvocationFor(display, command));
      var e := Executed(display, kind, data, world, command);
      && (e.result.Ok? <==>
            outcome.Exited? && outcome.success && (kind.Stdout? || Written(kind, data, outcome.stdout).ok))
      && (outcome.SpawnFailed? ==> e == Effect(Err(ExecutionError(outcome.err, command)), data))
      && (e.result == Err(PipeOutput) <==>
            !kind.Stdout? && outcome.Exited? && !Written(kind, data, outcome.stdout).ok)
      && (e.result == Err(Failed(command)) <==>
            outcome.Exited? && !outcome.success && (kind.Stdout? || Written(kind, data, outcome.stdout).ok))
      && (kind.Stdout? ==> e.data == data)
      && (!kind.Stdout? && outcome.Exited? ==> e.data == Written(kind, data, outcome.stdout).data)
  {
  }

  /** Executing only ever appends to the sink; a `Fixed` sink never overflows. */
  lemma ExecutedAppends(display: bool, kind: SinkKind, data: string, world: World, command: string)
    ensures var e := Executed(display, kind, data, world, command);
      && |data| <= |e.data| && e.data[..|data|] == data
      && (kind.Fixed? && |data| <= kind.capacity ==> |e.data| <= kind.capacity)
  {
    var e := Executed(display, kind, data, world, command);
    assert e.data[..|data|] == data;
  }

  /** `Executer`: a display flag and an output sink, both fixed for its lifetime. */
  class Executer {
    const display: bool
    const out: Sink
    /** Every command handed to `execute` so far, in order. */
    ghost var issued: seq<string>

    ghost predicate Valid()
      reads this, out
    {
      out.Valid()
    }

    /** `Executer::new`. */
    constructor (display: bool, out: Sink)
      requires out.Valid()
      ensures Valid()
      ensures this.display == display && this.out == out && issued == []
    {
      this.display := display;
      this.out := out;
      issued := [];
    }

    /**
     * `Execute::execute`. Starts the command, then, unless the sink is the
     * terminal, writes the child's whole output to the sink, and only then
     * looks at its exit status.
     */
    method Execute(command: string, world: World) returns (r: Result<(), CommandError>)
      requires Valid()
      modifies this, out
      ensures Valid()
      ensures issued == old(issued) + [command]
      ensures Effect(r, out.data) == Executed(display, out.kind, old(out.data), world, command)
    {
      issued := issued + [command];
      var outcome := world(GenerateCommand(display).Arg(command));
      if outcome.SpawnFailed? {
        return Err(ExecutionError(outcome.err, command));
      }
      if !out.kind.Stdout? {
        var written := out.WriteAll(outcome.stdout);
        if !written {
          return Err(PipeOutput);
        }
      }
      if !outcome.success {
        return Err(Failed(command));
      }
      return Ok(());
    }
  }
}
