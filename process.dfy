/** The process runner `sh(cmd, args, cwd, timeout)` seen from its callers: an
    oracle that answers each command with its stdout or with the message of the
    ProcessError it rejects with. How the child process runs, times out or
    fails to launch is not part of this model. */
module Process {
  import opened Common

  /** One `sh` invocation: program, arguments, working directory (absent for
      `undefined`) and timeout in milliseconds. */
  datatype Command = Command(program: string, args: seq<string>, cwd: Option<string>, timeoutMs: nat)

  /** What the environment answers to a command: stdout, or the error message. */
  type Shell = Command -> Result<string, string>

  /** A process runner that records every command it is asked to run, in order. */
  class ShellLog {
    const respond: Shell
    var log: seq<Command>

    constructor (respond: Shell)
      ensures this.respond == respond && log == []
    {
      this.respond := respond;
      log := [];
    }

    /** Runs `cmd`: it is appended to the log and answered by the environment. */
    method Sh(cmd: Command) returns (r: Result<string, string>)
      modifies this
      ensures log == old(log) + [cmd]
      ensures r == respond(cmd)
    {
      log := log + [cmd];
      r := respond(cmd);
    }
  }
}
