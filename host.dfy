/** The machine the tunnel runs on, as far as the core can observe it: the
    external programs it starts.  Spawning, pipes, reader threads and output
    decoding belong to the process controller and are not modelled; what
    remains is its contract.  A synchronous run either prints lines on
    stdout or exits non-zero, which the controller turns into
    SubprocessError; a background launch only starts the program; a stop
    asks a launched program to end. */
module Host {
  import opened Common

  /** One action taken on the machine. */
  datatype Event =
    | Ran(argv: seq<string>)      // a program run to completion, its output collected
    | Launched(argv: seq<string>) // a program started on its own thread
    | StopRequested(pid: nat)     // a stop request for the program launched by event `pid`

  /** What a synchronous run prints, given everything done on the machine
      before it; None stands for a non-zero exit. */
  type Oracle = (seq<Event>, seq<string>) -> Option<seq<string>>

  /** What `Process.run()` followed by `get_out_lines()` yields for a
      process whose exit errors are not ignored. */
  function RunResult(oracle: Oracle, history: seq<Event>, argv: seq<string>): (r: Result<seq<string>>)
  {
    match oracle(history, argv)
    case Some(lines) => Ok(lines)
    case None => Raise(SubprocessError)
  }

  class Machine {
    /** Every action so far, in order; a launched program is known by the
        index of its Launched event. */
    var log: seq<Event>
    const oracle: Oracle

    constructor (oracle: Oracle)
      ensures log == [] && this.oracle == oracle
    {
      log := [];
      this.oracle := oracle;
    }

    /** Run `argv` to completion with its output collected and hidden. */
    method Run(argv: seq<string>) returns (out: Result<seq<string>>)
      modifies this
      ensures log == old(log) + [Ran(argv)]
      ensures out == RunResult(oracle, old(log), argv)
    {
      out := RunResult(oracle, log, argv);
      log := log + [Ran(argv)];
    }

    /** Start `argv` in the background; the result identifies the program. */
    method Launch(argv: seq<string>) returns (pid: nat)
      modifies this
      ensures pid == |old(log)| && log == old(log) + [Launched(argv)]
    {
      pid := |log|;
      log := log + [Launched(argv)];
    }

    /** Ask the program launched as `pid` to end. */
    method Terminate(pid: nat)
      modifies this
      ensures log == old(log) + [StopRequested(pid)]
    {
      log := log + [StopRequested(pid)];
    }
  }
}
