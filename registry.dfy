/**
 * The command registry: a console's commands are the attributes bound to a
 * click `Command`. `__iter__` lists their names; `__getitem__` looks one up
 * and refuses every other name with the same BadParameter.
 */
module Registry {
  import opened Wrappers
  import opened Cluster

  /** The command bodies the console classes define. */
  datatype CommandId = Browser | Env | Exit | Help | Ls | Ping | Rt | Logs | Pause | Add | Rm | Reboot

  /** What an attribute of the console is bound to: a click command, or anything else. */
  datatype Attr = Cmd(id: CommandId) | Other

  type Attributes = map<string, Attr>

  predicate IsCommand(attrs: Attributes, name: string)
  {
    name in attrs && attrs[name].Cmd?
  }

  /** The names `__iter__` yields: the attributes bound to a command, and no others. */
  function CommandNames(attrs: Attributes): (names: set<string>)
    ensures names <= attrs.Keys
    ensures forall n :: n in names <==> IsCommand(attrs, n)
  {
    set n | n in attrs && attrs[n].Cmd?
  }

  function NoSuchCommand(name: string): string
  {
    "No such command \"" + name + "\"."
  }

  /**
   * `console[name]`: the command bound to `name`, or BadParameter naming it;
   * a missing attribute and one that is not a command are refused alike.
   */
  function Lookup(attrs: Attributes, name: string): (r: Result<CommandId, Exc>)
    ensures r.Ok? <==> name in CommandNames(attrs)
    ensures r.Ok? ==> name in attrs && attrs[name] == Cmd(r.value)
    ensures r.Err? ==> r.error == BadParameter(NoSuchCommand(name))
  {
    if name in attrs && attrs[name].Cmd? then Ok(attrs[name].id)
    else Err(BadParameter(NoSuchCommand(name)))
  }

  /**
   * The one-line summary `help` lists for a command: the first sentence of
   * its docstring, which is what `get_short_help_str` keeps of it.
   */
  function ShortHelp(id: CommandId): string
  {
    match id
    case Browser => "Start the Neo4j browser."
    case Env => "Show available environment variables."
    case Exit => "Shutdown all machines and exit the console."
    case Help => "Get help on a command or show all available commands."
    case Ls => "Show a detailed list of the available servers."
    case Ping => "Ping a server by name to check it is available."
    case Rt => "Display the routing table for a given graph database."
    case Logs => "Display logs for a named server."
    case Pause => "Pause a server for a given number of seconds."
    case Add => "Add a new server by mode."
    case Rm => "Remove a server by name or role."
    case Reboot => "Reboot a server by name or role."
  }

  /**
   * The attributes of a `Neo4jConsole` that matter here: its nine commands
   * and its other members, none of which is a command.
   */
  function BaseAttributes(): (attrs: Attributes)
    ensures CommandNames(attrs) == {"browser", "env", "exit", "help", "ls", "ping", "rt", "logs", "pause"}
    ensures attrs["exit"] == Cmd(Exit) && attrs["help"] == Cmd(Help)
  {
    map[
      "browser" := Cmd(Browser),
      "env" := Cmd(Env),
      "exit" := Cmd(Exit),
      "help" := Cmd(Help),
      "ls" := Cmd(Ls),
      "ping" := Cmd(Ping),
      "rt" := Cmd(Rt),
      "logs" := Cmd(Logs),
      "pause" := Cmd(Pause),
      "args" := Other,
      "service" := Other,
      "invoke" := Other,
      "prompt" := Other,
      "run" := Other,
      "_iter_machines" := Other,
      "_for_each_machine" := Other,
      "__init__" := Other,
      "__iter__" := Other,
      "__getitem__" := Other
    ]
  }

  /** The commands `Neo4jClusterConsole` adds. */
  function ClusterExtension(): Attributes
  {
    map[
      "add" := Cmd(Add),
      "rm" := Cmd(Rm),
      "reboot" := Cmd(Reboot)
    ]
  }

  /** A `Neo4jClusterConsole`: the base attributes plus the extension. */
  function ClusterAttributes(): (attrs: Attributes)
    ensures "add" in attrs && attrs["add"] == Cmd(Add)
    ensures "rm" in attrs && attrs["rm"] == Cmd(Rm)
    ensures "reboot" in attrs && attrs["reboot"] == Cmd(Reboot)
  {
    BaseAttributes() + ClusterExtension()
  }

  /** Adding attributes under new names adds their commands and rebinds nothing. */
  lemma Extend(base: Attributes, ext: Attributes)
    requires base.Keys !! ext.Keys
    ensures CommandNames(base + ext) == CommandNames(base) + CommandNames(ext)
    ensures CommandNames(base) !! CommandNames(ext)
    ensures forall n :: n in base ==> (base + ext)[n] == base[n]
  {
  }

  /**
   * The cluster console's commands are the base console's plus `add`, `rm`
   * and `reboot`, and every base command keeps its binding.
   */
  lemma ClusterExtendsBase()
    ensures CommandNames(ClusterAttributes()) == CommandNames(BaseAttributes()) + {"add", "rm", "reboot"}
    ensures CommandNames(BaseAttributes()) !! {"add", "rm", "reboot"}
    ensures forall n :: n in CommandNames(BaseAttributes()) ==> ClusterAttributes()[n] == BaseAttributes()[n]
  {
    var ext := ClusterExtension();
    assert ext.Keys == {"add", "rm", "reboot"};
    assert CommandNames(ext) == {"add", "rm", "reboot"};
    assert "add" !in BaseAttributes() && "rm" !in BaseAttributes() && "reboot" !in BaseAttributes();
    Extend(BaseAttributes(), ext);
  }

  /** `exit` is a command of both consoles. */
  lemma ExitRegistered(cluster: bool)
    ensures var attrs := if cluster then ClusterAttributes() else BaseAttributes();
            IsCommand(attrs, "exit") && attrs["exit"].id == Exit
  {
    assert BaseAttributes()["exit"] == Cmd(Exit);
    assert "exit" in CommandNames(BaseAttributes());
    ClusterExtendsBase();
  }
}
