/**
 * The console: `invoke`'s three exception tiers, the read loop, and the
 * class whose methods run the command bodies step by step, each proved to
 * produce the trace `Commands` specifies.
 *
 * `log` stands for everything observable outside the console: the lines
 * echoed to standard output and error, and the calls made on the Service,
 * its machines and their containers, in the order they happen.
 */
module Console {
  import opened Wrappers
  import opened Text
  import opened Cluster
  import opened Resolver
  import opened Registry
  import opened Commands

  /**
   * What click's `make_context` makes of a command and its raw arguments:
   * the call with its arguments bound, a refusal, or `--help`, for which
   * click prints the command's help and raises `Exit`.
   */
  datatype Binding = Bound(call: Call) | Refused(exc: Exc) | HelpRequested

  /** click's argument binding, which the console does not implement. */
  type Binder = (CommandId, seq<string>) -> Binding

  /**
   * `f.make_context(arg0, args)` binds the words for the `f` that was looked
   * up, so a bound call is that command's, and click refuses words only with
   * a ClickException (a usage error).
   */
  ghost predicate Dispatches(bind: Binder)
  {
    forall c, ws :: (bind(c, ws).Bound? ==> CommandOf(bind(c, ws).call) == c)
               && (bind(c, ws).Refused? ==> IsClickException(bind(c, ws).exc))
  }

  /** What `invoke` did, and the exception that left it, if any. */
  datatype Handled = Handled(events: seq<Event>, escaped: Option<Exc>)

  /**
   * The `except` clauses of `invoke`: click's `Exit` is swallowed, a
   * ClickException adds exactly one line on standard error, and anything
   * else leaves `invoke`.
   */
  function Settle(events: seq<Event>, o: Outcome): (h: Handled)
    ensures h.escaped.None? <==> o.Returned? || o.exc.ClickExit? || IsClickException(o.exc)
    ensures h.escaped.Some? ==> h.escaped.value == o.exc
    ensures o.Raised? && IsClickException(o.exc) ==> h.events == events + [Stderr(FormatMessage(o.exc))]
    ensures !(o.Raised? && IsClickException(o.exc)) ==> h.events == events
  {
    match o
    case Returned => Handled(events, None)
    case Raised(e) =>
      if e.ClickExit? then Handled(events, None)
      else if IsClickException(e) then Handled(events + [Stderr(FormatMessage(e))], None)
      else Handled(events, Some(e))
  }

  /**
   * The exceptions that leave `invoke` and end `run`, none of them click's:
   * `args[0]` of no words, `exit`'s SystemExit, the AttributeError of a
   * `None` key or machine, and a ValueError (an empty listing's `max`, or a
   * line `shlex` cannot split).
   */
  predicate Uncaught(e: Exc)
  {
    e.IndexError? || e.SystemExit? || e.AttributeError? || e.ValueError?
  }

  /**
   * `invoke(*tokens)`: no token at all fails `args[0]` with an IndexError
   * that no clause catches; otherwise the first token is looked up, the
   * rest bound, the body run, and its end settled. Only an exception that
   * is not click's gets out.
   */
  ghost function InvokeTrace(tokens: seq<string>, bind: Binder, service: Service, attrs: Attributes): (h: Handled)
    requires Dispatches(bind)
    ensures tokens == [] ==> h == Handled([], Some(IndexError("tuple index out of range")))
    ensures h.escaped.Some? ==> Uncaught(h.escaped.value)
  {
    if tokens == [] then Handled([], Some(IndexError("tuple index out of range")))
    else match Lookup(attrs, tokens[0])
      case Err(e) => Settle([], Raised(e))
      case Ok(c) =>
        match bind(c, tokens[1..])
        case Refused(e) => Settle([], Raised(e))
        case HelpRequested => Settle([HelpText(tokens[0], tokens[0])], Raised(ClickExit(0)))
        case Bound(call) =>
          var t := BodyTrace(call, service, attrs);
          Settle(t.events, t.outcome)
  }

  /** A line of input and what `shlex.split` makes of it: the words, or its ValueError message. */
  datatype Line = Line(text: string, words: Result<seq<string>, string>)

  /** One turn of the read loop: the effects, the new `self.args`, and an exception that ends the loop. */
  datatype Turn = Turn(events: seq<Event>, args: Option<seq<string>>, escaped: Option<Exc>)

  /**
   * One turn of `run`: an empty line does nothing; any other line is split,
   * the words stored in `self.args`, and `invoke` called with them. The test
   * is on the raw line, so a line of blanks is split into no words and
   * `invoke` then raises IndexError.
   */
  ghost function TurnTrace(line: Line, args: Option<seq<string>>, bind: Binder, service: Service,
                           attrs: Attributes): (t: Turn)
    requires Dispatches(bind)
    ensures line.text == "" ==> t == Turn([], args, None)
    ensures line.text != "" && line.words.Ok? ==> t.args == Some(line.words.value)
    ensures t.escaped.Some? ==> Uncaught(t.escaped.value)
  {
    if line.text == "" then Turn([], args, None)
    else match line.words
      case Err(msg) => Turn([], args, Some(ValueError(msg)))
      case Ok(tokens) =>
        var h := InvokeTrace(tokens, bind, service, attrs);
        Turn(h.events, Some(tokens), h.escaped)
  }

  /** How `run` ends: its effects, the last `self.args`, and the exception that stopped it. */
  datatype RunEnd = RunEnd(events: seq<Event>, args: Option<seq<string>>, stop: Exc)

  /**
   * `run` over the lines typed, until an exception escapes or the input
   * ends (EOFError): it never ends with a user error or click's `Exit`.
   */
  ghost function RunTrace(lines: seq<Line>, args: Option<seq<string>>, bind: Binder, service: Service,
                          attrs: Attributes): (r: RunEnd)
    requires Dispatches(bind)
    ensures r.stop.EOFError? || Uncaught(r.stop)
    decreases |lines|
  {
    if lines == [] then RunEnd([], args, EOFError)
    else
      var t := TurnTrace(lines[0], args, bind, service, attrs);
      if t.escaped.Some? then RunEnd(t.events, t.args, t.escaped.value)
      else
        var r := RunTrace(lines[1..], t.args, bind, service, attrs);
        RunEnd(t.events + r.events, r.args, r.stop)
  }

  function Prepend(events: seq<Event>, r: RunEnd): RunEnd
  {
    RunEnd(events + r.events, r.args, r.stop)
  }

  /**
   * A first word that is not a command costs one line on standard error,
   * `Invalid value: No such command "<word>".`, and nothing else happens.
   */
  lemma UnknownCommandReported(tokens: seq<string>, bind: Binder, service: Service, attrs: Attributes)
    requires Dispatches(bind)
    requires tokens != [] && !IsCommand(attrs, tokens[0])
    ensures InvokeTrace(tokens, bind, service, attrs)
         == Handled([Stderr("Invalid value: No such command \"" + tokens[0] + "\".")], None)
  {
    var r := Lookup(attrs, tokens[0]);
    assert r.Err? && r.error == BadParameter(NoSuchCommand(tokens[0]));
    var w := tokens[0];
    assert "Invalid value: " + "No such command \"" == "Invalid value: No such command \"";
    calc {
      FormatMessage(r.error);
      "Invalid value: " + ("No such command \"" + w + "\".");
      ("Invalid value: " + "No such command \"") + w + "\".";
    }
  }

  /**
   * A body that ends with a ClickException adds exactly one line on
   * standard error to what it did, and `invoke` returns normally.
   */
  lemma UserErrorsCaught(tokens: seq<string>, bind: Binder, service: Service, attrs: Attributes)
    requires Dispatches(bind)
    requires tokens != [] && IsCommand(attrs, tokens[0])
    requires bind(attrs[tokens[0]].id, tokens[1..]).Bound?
    requires var t := BodyTrace(bind(attrs[tokens[0]].id, tokens[1..]).call, service, attrs);
             t.outcome.Raised? && IsClickException(t.outcome.exc)
    ensures var t := BodyTrace(bind(attrs[tokens[0]].id, tokens[1..]).call, service, attrs);
            var h := InvokeTrace(tokens, bind, service, attrs);
            h == Handled(t.events + [Stderr(FormatMessage(t.outcome.exc))], None)
  {
    var r := Lookup(attrs, tokens[0]);
    assert r == Ok(attrs[tokens[0]].id);
  }

  /**
   * Invoking a command runs that command's body: the call click binds
   * belongs to the command the first word names, and `invoke` settles the
   * end of exactly that body's trace.
   */
  lemma InvokeRunsNamed(tokens: seq<string>, bind: Binder, service: Service, attrs: Attributes)
    requires Dispatches(bind)
    requires tokens != [] && IsCommand(attrs, tokens[0])
    requires bind(attrs[tokens[0]].id, tokens[1..]).Bound?
    ensures var call := bind(attrs[tokens[0]].id, tokens[1..]).call;
            var t := BodyTrace(call, service, attrs);
            CommandOf(call) == attrs[tokens[0]].id &&
            InvokeTrace(tokens, bind, service, attrs) == Settle(t.events, t.outcome)
  {
    var r := Lookup(attrs, tokens[0]);
    assert r == Ok(attrs[tokens[0]].id);
  }

  /**
   * `--help` among a command's words prints that command's help, and the
   * `Exit` click raises after it is swallowed.
   */
  lemma HelpFlagShowsHelp(tokens: seq<string>, bind: Binder, service: Service, attrs: Attributes)
    requires Dispatches(bind)
    requires tokens != [] && IsCommand(attrs, tokens[0])
    requires bind(attrs[tokens[0]].id, tokens[1..]) == HelpRequested
    ensures InvokeTrace(tokens, bind, service, attrs) == Handled([HelpText(tokens[0], tokens[0])], None)
  {
    var r := Lookup(attrs, tokens[0]);
    assert r == Ok(attrs[tokens[0]].id);
  }

  /**
   * `exit` raises SystemExit past `invoke`, and so ends `run`, in both
   * consoles, whenever click binds its (empty) argument list: the call
   * bound is `exit`'s own.
   */
  lemma ExitEscapes(bind: Binder, service: Service, cluster: bool)
    requires Dispatches(bind) && bind(Exit, []).Bound?
    ensures var attrs := if cluster then ClusterAttributes() else BaseAttributes();
            InvokeTrace(["exit"], bind, service, attrs) == Handled([], Some(SystemExit))
  {
    ExitRegistered(cluster);
    assert ["exit"][1..] == [];
  }

  /**
   * A line of blanks is not empty, so it is split, into no words, and
   * `args[0]` raises an IndexError that ends `run`.
   */
  lemma BlankLineEscapes(line: Line, args: Option<seq<string>>, bind: Binder, service: Service,
                         attrs: Attributes)
    requires Dispatches(bind)
    requires line.text != "" && line.words == Ok([])
    ensures TurnTrace(line, args, bind, service, attrs)
         == Turn([], Some([]), Some(IndexError("tuple index out of range")))
  {
  }

  /** Whether a line ends `run`; `self.args` plays no part in that. */
  ghost predicate Escapes(line: Line, bind: Binder, service: Service, attrs: Attributes)
    requires Dispatches(bind)
  {
    TurnTrace(line, None, bind, service, attrs).escaped.Some?
  }

  /** Empty lines do nothing: a run of them reaches the end of input with nothing done. */
  lemma {:induction false} EmptyLinesIgnored(lines: seq<Line>, args: Option<seq<string>>, bind: Binder,
                                             service: Service, attrs: Attributes)
    requires Dispatches(bind)
    requires forall i :: 0 <= i < |lines| ==> lines[i].text == ""
    ensures RunTrace(lines, args, bind, service, attrs) == RunEnd([], args, EOFError)
  {
    if lines != [] {
      EmptyLinesIgnored(lines[1..], args, bind, service, attrs);
    }
  }

  /** When no line ends it, `run` reads to the end of input and stops with EOFError. */
  lemma {:induction false} RunEndsAtEof(lines: seq<Line>, args: Option<seq<string>>, bind: Binder,
                                        service: Service, attrs: Attributes)
    requires Dispatches(bind)
    requires forall i :: 0 <= i < |lines| ==> !Escapes(lines[i], bind, service, attrs)
    ensures RunTrace(lines, args, bind, service, attrs).stop == EOFError
  {
    if lines != [] {
      var t := TurnTrace(lines[0], args, bind, service, attrs);
      assert t.escaped == TurnTrace(lines[0], None, bind, service, attrs).escaped;
      RunEndsAtEof(lines[1..], t.args, bind, service, attrs);
    }
  }

  /** `run` stops at the first line that raises past `invoke`, with that exception. */
  lemma {:induction false} RunStopsAtFirstEscape(lines: seq<Line>, k: nat, args: Option<seq<string>>,
                                                 bind: Binder, service: Service, attrs: Attributes)
    requires Dispatches(bind)
    requires k < |lines| && Escapes(lines[k], bind, service, attrs)
    requires forall i :: 0 <= i < k ==> !Escapes(lines[i], bind, service, attrs)
    ensures RunTrace(lines, args, bind, service, attrs).stop
         == TurnTrace(lines[k], None, bind, service, attrs).escaped.value
  {
    var t := TurnTrace(lines[0], args, bind, service, attrs);
    assert t.escaped == TurnTrace(lines[0], None, bind, service, attrs).escaped;
    if k > 0 {
      RunStopsAtFirstEscape(lines[1..], k - 1, t.args, bind, service, attrs);
    }
  }

  lemma PrependTwice(done: seq<Event>, more: seq<Event>, r: RunEnd)
    ensures Prepend(done, Prepend(more, r)) == Prepend(done + more, r)
  {
    AppendTwice(done, more, r.events);
  }

  /** One turn of the loop over the lines from `i` on. */
  lemma RunStep(lines: seq<Line>, i: nat, args: Option<seq<string>>, bind: Binder, service: Service,
                attrs: Attributes)
    requires Dispatches(bind)
    requires i < |lines|
    ensures var t := TurnTrace(lines[i], args, bind, service, attrs);
            var rest := RunTrace(lines[i..], args, bind, service, attrs);
            if t.escaped.Some? then rest == RunEnd(t.events, t.args, t.escaped.value)
            else rest == Prepend(t.events, RunTrace(lines[i + 1..], t.args, bind, service, attrs))
  {
    assert lines[i..][1..] == lines[i + 1..];
  }

  class Neo4jConsole {
    const service: Service
    const attrs: Attributes
    var args: Option<seq<string>>
    var log: seq<Event>

    /** `Neo4jConsole(service)`, or `Neo4jClusterConsole(service)` when `cluster` holds. */
    constructor (service: Service, cluster: bool)
      ensures this.service == service
      ensures attrs == if cluster then ClusterAttributes() else BaseAttributes()
      ensures args == None && log == []
    {
      this.service := service;
      this.attrs := if cluster then ClusterAttributes() else BaseAttributes();
      args := None;
      log := [];
    }

    /** `__iter__`: the command names, in the name order `getmembers` lists attributes in. */
    method Iter() returns (names: seq<string>)
      ensures StrictlySorted(names)
      ensures forall n :: n in names <==> IsCommand(attrs, n)
    {
      var rest := CommandNames(attrs);
      names := [];
      while rest != {}
        invariant StrictlySorted(names)
        invariant forall n :: n in names || n in rest <==> IsCommand(attrs, n)
        invariant forall n :: n in rest ==> n !in names
        invariant forall i, n :: 0 <= i < |names| && n in rest ==> Below(names[i], n)
        decreases rest
      {
        LeastExists(rest);
        var m :| IsLeast(m, rest);
        names := names + [m];
        rest := rest - {m};
      }
    }

    /**
     * One key of the walk: a `None` key raises on `spec.name`; a key the
     * token names has `f` run on its machine (which raises if the machine is
     * `None`) and is counted.
     */
    method VisitKey(a: Action, token: string, e: Entry, found: nat) returns (r: Result<nat, Exc>)
      modifies this`log
      ensures var v := Visit(a, token, e, found); log == old(log) + v.events && r == v.outcome
    {
      r := Ok(found);
      match e.spec {
        case None =>
          r := Err(NoneAttribute("name"));
        case Some(sp) =>
          if Named(sp, token) {
            match e.machine {
              case None =>
                r := Err(NoneAttribute(FirstAttribute(a)));
              case Some(m) =>
                log := log + Effects(a, m);
                r := Ok(found + 1);
            }
          }
      }
    }

    /** `_for_each_machine(name, f)`: default the name, then walk the machines it names. */
    method ForEachMachine(name: Option<string>, a: Action) returns (r: Result<nat, Exc>)
      modifies this`log
      ensures var p := ForEach(a, Target(name), service.machines);
              log == old(log) + p.events && r == p.outcome
    {
      r := Walk(a, Target(name));
    }

    /** The loop of `_for_each_machine`: visit each key of the snapshot, stop at the first exception. */
    method Walk(a: Action, token: string) returns (r: Result<nat, Exc>)
      modifies this`log
      ensures var p := ForEach(a, token, service.machines);
              log == old(log) + p.events && r == p.outcome
    {
      var keys := service.machines;
      var found := 0;
      var i := 0;
      ghost var start := log;
      ghost var done: seq<Event> := [];
      while i < |keys|
        invariant 0 <= i <= |keys|
        invariant log == start + done
        invariant ForEach(a, token, keys[..i]) == Pass(done, Ok(found))
      {
        ghost var v := Visit(a, token, keys[i], found);
        ForEachStep(a, token, keys, i, done, found);
        var step := VisitKey(a, token, keys[i], found);
        AppendTwice(start, done, v.events);
        done := done + v.events;
        if step.Err? {
          r := step;
          return;
        }
        found := step.value;
        i := i + 1;
      }
      assert keys[..i] == keys;
      r := Ok(found);
    }

    /**
     * `browser`, `ping`, `logs` and `pause` once bound: run the action on
     * every machine named and refuse, with the argument as typed, a name
     * that picks none.
     */
    method OnMachines(a: Action, machine: Option<string>) returns (o: Outcome)
      modifies this`log
      ensures var t := MachineTrace(a, machine, service.machines);
              log == old(log) + t.events && o == t.outcome
    {
      var r := ForEachMachine(machine, a);
      match r {
        case Err(e) =>
          o := Raised(e);
        case Ok(found) =>
          if found == 0 {
            o := Raised(BadParameter(NotFoundMessage(machine)));
          } else {
            o := Returned;
          }
      }
    }

    /** `ls`: the header, then one row per key that has both a spec and a machine. */
    method Ls() returns (o: Outcome)
      modifies this`log
      ensures var t := LsTrace(service.machines); log == old(log) + t.events && o == t.outcome
    {
      log := log + [Stdout(LsHeader)];
      ghost var start := log;
      var items := service.machines;
      var i := 0;
      while i < |items|
        invariant 0 <= i <= |items|
        invariant log == start + LsRows(items[..i])
      {
        LsRowsStep(items, i);
        ghost var rows := LsRows(items[..i]);
        EchoRow(items[i]);
        AppendTwice(start, rows, if Listed(items[i]) then [Stdout(RowOf(items[i]))] else []);
        i := i + 1;
      }
      assert items[..i] == items;
      o := Returned;
    }

    /** The body of the `ls` loop for one key: skip it, or echo its row. */
    method EchoRow(e: Entry)
      modifies this`log
      ensures log == old(log) + if Listed(e) then [Stdout(RowOf(e))] else []
    {
      if e.spec.Some? && e.machine.Some? {
        log := log + [Stdout(LsRow(e.spec.value, e.machine.value))];
      }
    }

    /**
     * `help [command]`: the named command's help, or the list of all
     * commands.
     */
    method Help(command: Option<string>) returns (o: Outcome)
      modifies this`log
      ensures var t := HelpTrace(attrs, command); log == old(log) + t.events && o == t.outcome
    {
      if command.Some? && command.value != "" {
        var r := Lookup(attrs, command.value);
        match r {
          case Err(e) =>
            o := Raised(e);
          case Ok(_) =>
            log := log + [HelpText(command.value, command.value)];
            o := Returned;
        }
      } else {
        o := ListCommands();
      }
    }

    /** The `else` branch of `help`: "Commands:", then one line per command, padded to the longest name. */
    method ListCommands() returns (o: Outcome)
      modifies this`log
      ensures var t := ListTrace(attrs); log == old(log) + t.events && o == t.outcome
    {
      log := log + [Stdout("Commands:")];
      var names := Iter();
      ListTraceOf(attrs, names);
      if names == [] {
        o := Raised(ValueError("max() arg is an empty sequence"));
        return;
      }
      var w := MaxLen(names);
      EchoHelpLines(names, w);
      AppendTwice(old(log), [Stdout("Commands:")], HelpRows(attrs, names, w));
      o := Returned;
    }

    /** The loop of the listing: one line per name, in the order given. */
    method EchoHelpLines(names: seq<string>, w: nat)
      requires forall j :: 0 <= j < |names| ==> IsCommand(attrs, names[j])
      modifies this`log
      ensures log == old(log) + HelpRows(attrs, names, w)
    {
      var i := 0;
      while i < |names|
        invariant 0 <= i <= |names|
        invariant log == old(log) + HelpRows(attrs, names[..i], w)
      {
        ghost var rows := HelpRows(attrs, names[..i], w);
        HelpRowsSnoc(attrs, names, i, w);
        EchoHelpLine(names[i], w);
        AppendTwice(old(log), rows, [Stdout(HelpLine(names[i], Summary(attrs, names[i]), w))]);
        i := i + 1;
      }
      assert names[..i] == names;
    }

    /** One line of the listing: `template.format(arg0, f.get_short_help_str(...))`. */
    method EchoHelpLine(name: string, w: nat)
      requires IsCommand(attrs, name)
      modifies this`log
      ensures log == old(log) + [Stdout(HelpLine(name, Summary(attrs, name), w))]
    {
      var f := attrs[name].id;
      log := log + [Stdout(HelpLine(name, ShortHelp(f), w))];
    }

    /** `add MODE`: call `add_core` or `add_replica`, or refuse the mode. */
    method Add(mode: string) returns (o: Outcome)
      modifies this`log
      ensures var t := AddTrace(mode); log == old(log) + t.events && o == t.outcome
    {
      if mode == "c" || mode == "core" {
        log := log + [ServiceAddCore];
        o := Returned;
      } else if mode == "r" || mode == "rr" || mode == "replica" || mode == "read-replica" || mode == "read_replica" {
        log := log + [ServiceAddReplica];
        o := Returned;
      } else {
        o := Raised(BadParameter(InvalidModeMessage));
      }
    }

    /** `rm MACHINE`: ask the Service to remove it; a falsy answer means not found. */
    method Rm(target: string) returns (o: Outcome)
      modifies this`log
      ensures var t := RemoveTrace(service, target); log == old(log) + t.events && o == t.outcome
    {
      log := log + [ServiceRemove(target)];
      var removed := target in service.removable;
      o := if removed then Returned else Raised(BadParameter(NotFoundMessage(Some(target))));
    }

    /** `reboot MACHINE`: ask the Service to reboot it; a falsy answer means not found. */
    method Reboot(target: string) returns (o: Outcome)
      modifies this`log
      ensures var t := RebootTrace(service, target); log == old(log) + t.events && o == t.outcome
    {
      log := log + [ServiceReboot(target)];
      var rebooted := target in service.rebootable;
      o := if rebooted then Returned else Raised(BadParameter(NotFoundMessage(Some(target))));
    }

    /** `f.invoke(ctx)`: run the body of a bound command. */
    method Execute(call: Call) returns (o: Outcome)
      modifies this`log
      ensures var t := BodyTrace(call, service, attrs); log == old(log) + t.events && o == t.outcome
    {
      match call {
        case BrowserCall(m) => o := OnMachines(BrowserAction, m);
        case EnvCall =>
          log := log + [ShowEnv];
          o := Returned;
        case ExitCall => o := Raised(SystemExit);
        case HelpCall(c) => o := Help(c);
        case LsCall(_) => o := Ls();
        case PingCall(m) => o := OnMachines(PingAction, m);
        case RtCall(g) =>
          log := log + [ShowRoutingTable(g)];
          o := Returned;
        case LogsCall(m) => o := OnMachines(LogsAction, m);
        case PauseCall(time, m) => o := OnMachines(PauseAction(time), m);
        case AddCall(mode) => o := Add(mode);
        case RmCall(target) => o := Rm(target);
        case RebootCall(target) => o := Reboot(target);
      }
    }

    /**
     * `invoke(*tokens)`: look the first token up, bind the rest, run the
     * body; swallow click's `Exit`, report a ClickException on standard
     * error, and let anything else escape.
     */
    method Invoke(tokens: seq<string>, bind: Binder) returns (escaped: Option<Exc>)
      requires Dispatches(bind)
      modifies this`log
      ensures var h := InvokeTrace(tokens, bind, service, attrs);
              log == old(log) + h.events && escaped == h.escaped
    {
      if tokens == [] {
        return Some(IndexError("tuple index out of range"));
      }
      var o: Outcome;
      var f := Lookup(attrs, tokens[0]);
      if f.Err? {
        o := Raised(f.error);
      } else {
        var ctx := bind(f.value, tokens[1..]);
        match ctx {
          case Refused(e) => o := Raised(e);
          case HelpRequested =>
            log := log + [HelpText(tokens[0], tokens[0])];
            o := Raised(ClickExit(0));
          case Bound(call) => o := Execute(call);
        }
      }
      escaped := None;
      if o.Raised? {
        if o.exc.ClickExit? {
        } else if IsClickException(o.exc) {
          log := log + [Stderr(FormatMessage(o.exc))];
        } else {
          escaped := Some(o.exc);
        }
      }
    }

    /**
     * `run`: read lines until one raises past `invoke`, or the input ends
     * (EOFError).
     */
    method Run(lines: seq<Line>, bind: Binder) returns (stop: Exc)
      requires Dispatches(bind)
      modifies this`log, this`args
      ensures var r := RunTrace(lines, old(args), bind, service, attrs);
              log == old(log) + r.events && args == r.args && stop == r.stop
    {
      var i := 0;
      ghost var done: seq<Event> := [];
      while i < |lines|
        invariant 0 <= i <= |lines|
        invariant log == old(log) + done
        invariant RunTrace(lines, old(args), bind, service, attrs)
               == Prepend(done, RunTrace(lines[i..], args, bind, service, attrs))
      {
        RunStep(lines, i, args, bind, service, attrs);
        ghost var t := TurnTrace(lines[i], args, bind, service, attrs);
        var escaped := Step(lines[i], bind);
        AppendTwice(old(log), done, t.events);
        if escaped.Some? {
          done := done + t.events;
          return escaped.value;
        }
        PrependTwice(done, t.events, RunTrace(lines[i + 1..], args, bind, service, attrs));
        done := done + t.events;
        i := i + 1;
      }
      assert lines[i..] == [];
      stop := EOFError;
    }

    /** One pass of the `while True` loop of `run`, given the line typed. */
    method Step(line: Line, bind: Binder) returns (escaped: Option<Exc>)
      requires Dispatches(bind)
      modifies this`log, this`args
      ensures var t := TurnTrace(line, old(args), bind, service, attrs);
              log == old(log) + t.events && args == t.args && escaped == t.escaped
    {
      escaped := None;
      if line.text != "" {
        match line.words {
          case Err(msg) =>
            escaped := Some(ValueError(msg));
          case Ok(tokens) =>
            args := Some(tokens);
            escaped := Invoke(tokens, bind);
        }
      }
    }
  }
}
