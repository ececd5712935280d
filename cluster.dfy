/**
 * What the console sees of the cluster it administers: the machine specs
 * and live machines the Service keeps, the exceptions that travel through
 * a command, and the observable effects a command has.
 */
module Cluster {
  import opened Wrappers

  /** A cluster member's description: short and fully-qualified name, ports and configuration. */
  datatype Spec = Spec(
    name: string,
    fqName: string,
    boltPort: nat,
    httpPort: nat,
    debugPort: nat,
    httpUri: string,
    config: map<string, string>)

  /** The container a machine runs in, known by its short id. */
  datatype Container = Container(shortId: string)

  /** A live machine: its own spec and its container. */
  datatype Machine = Machine(spec: Spec, container: Container)

  /** One item of the Service's spec-to-machine mapping; either side may be `None`. */
  datatype Entry = Entry(spec: Option<Spec>, machine: Option<Machine>)

  /** The mapping `service.machines`, in its iteration (insertion) order. */
  type Snapshot = seq<Entry>

  /**
   * The Service handle. `removable` and `rebootable` are the name or role
   * tokens for which `remove(token)` and `reboot(token)` answer truthily;
   * how the Service resolves roles is its own business.
   */
  datatype Service = Service(
    name: string,
    machines: Snapshot,
    removable: set<string>,
    rebootable: set<string>)

  /** A pause duration as click delivers it: the float and the text `str` gives it. */
  datatype Seconds = Seconds(value: real, text: string)

  /** Everything a command does that can be observed outside the console, in order. */
  datatype Event =
    | Stdout(line: string)                     // click.echo(line)
    | Stderr(line: string)                     // click.echo(line, err=True)
    | OpenBrowser(uri: string)                 // webbrowser.open(uri)
    | PingMachine(machine: Machine, timeout: int)
    | PauseContainer(machine: Machine)
    | Sleep(time: Seconds)
    | UnpauseContainer(machine: Machine)
    | EchoLogs(machine: Machine)               // click.echo(container.logs())
    | HelpText(command: string, infoName: string)  // click's full help of a command
    | ShowEnv                                  // the `env` listing
    | ShowRoutingTable(gdb: Option<string>)    // the `rt` exchange with a router
    | ServiceAddCore                           // service.add_core()
    | ServiceAddReplica                        // service.add_replica()
    | ServiceRemove(token: string)             // service.remove(token)
    | ServiceReboot(token: string)             // service.reboot(token)

  /** Appending effects in two steps is appending them at once. */
  lemma AppendTwice(log: seq<Event>, done: seq<Event>, more: seq<Event>)
    ensures log + done + more == log + (done + more)
  {
  }

  /** The exceptions that can leave a command body. */
  datatype Exc =
    | ClickExit(code: int)           // click.exceptions.Exit
    | BadParameter(message: string)  // click.BadParameter raised by the console without a parameter
    | ClickError(text: string)       // another ClickException (argument binding); text as formatted
    | SystemExit
    | IndexError(message: string)
    | AttributeError(message: string)
    | ValueError(message: string)
    | EOFError

  /** The user-error tier: the exceptions that are `ClickException`s. */
  predicate IsClickException(e: Exc)
  {
    e.BadParameter? || e.ClickError?
  }

  /**
   * `error.format_message()`: a BadParameter raised without a parameter is
   * rendered by click as "Invalid value: " followed by its message.
   */
  function FormatMessage(e: Exc): (line: string)
    requires IsClickException(e)
    ensures e.BadParameter? ==> line == "Invalid value: " + e.message
  {
    match e
    case BadParameter(m) => "Invalid value: " + m
    case ClickError(t) => t
  }

  /** How a piece of Python code ends: it returns, or an exception leaves it. */
  datatype Outcome = Returned | Raised(exc: Exc)

  /** The AttributeError Python raises for `None.attr`. */
  function NoneAttribute(attr: string): Exc
  {
    AttributeError("'NoneType' object has no attribute '" + attr + "'")
  }
}
