/**
 * The command dialer (`NetPipe`): each `Dial` prepares `sh -c <Command>`, binds
 * its standard input and output to the server end of a fresh in-memory pipe,
 * starts it and returns the client end. Starting the process is a foreign step
 * whose error is given as `startErr`.
 */
module CommandTunnel {
  import opened Wrappers
  import opened ProxyTypes

  /** The process `exec.Command` describes: the program name as passed (before the `PATH` lookup) and `Args`. */
  datatype Cmd = Cmd(name: string, args: seq<string>)

  /** `exec.Command("sh", "-c", command)`: Args repeats the program name first. */
  function ShellCommand(command: string): (c: Cmd)
    ensures c.name == "sh" && |c.args| == 3 && c.args[0] == "sh" && c.args[1] == "-c"
    ensures c.args[2] == command
  {
    Cmd("sh", ["sh", "-c", command])
  }

  /** One end of a `net.Pipe`. */
  class PipeEnd {
    var open: bool

    constructor ()
      ensures open
    {
      open := true;
    }
  }

  class NetPipe {
    var command: string
    var cmd: Option<Cmd>

    /** `CreateProxyCommandProxyDialer`: a fresh `NetPipe` holding the command verbatim. */
    constructor (dialer: Dialer)
      requires dialer.CommandPipe?
      ensures command == dialer.command && cmd == None
    {
      command := dialer.command;
      cmd := None;
    }

    /**
     * `NetPipe.Dial`. `network` and `addr` are discarded; the command alone
     * names the target. The client end is returned even when the start
     * fails, together with the start error.
     */
    method Dial(network: string, addr: string, startErr: Option<Error>)
      returns (con: PipeEnd, err: Option<Error>)
      modifies this
      ensures command == old(command)
      ensures cmd == Some(ShellCommand(command))
      ensures err == startErr
      ensures fresh(con) && con.open
    {
      con := new PipeEnd();
      cmd := Some(ShellCommand(command));
      err := startErr;
    }
  }
}
