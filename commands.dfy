/**
 * The command bodies, each as the trace it produces: the effects it has,
 * in order, and how it ends. The imperative versions in `Console` are
 * proved to produce exactly these traces.
 */
module Commands {
  import opened Wrappers
  import opened Text
  import opened Cluster
  import opened Resolver
  import opened Registry

  /** A command with its arguments bound, as click hands it to the body. */
  datatype Call =
    | BrowserCall(machine: Option<string>)
    | EnvCall
    | ExitCall
    | HelpCall(command: Option<string>)
    | LsCall(refresh: bool)
    | PingCall(machine: Option<string>)
    | RtCall(gdb: Option<string>)
    | LogsCall(machine: Option<string>)
    | PauseCall(time: Seconds, machine: Option<string>)
    | AddCall(mode: string)
    | RmCall(target: string)
    | RebootCall(target: string)

  /** The command a bound call belongs to: the `f` whose `make_context` produced it. */
  function CommandOf(call: Call): (c: CommandId)
    ensures c == Exit <==> call.ExitCall?
    ensures c == Help <==> call.HelpCall?
  {
    match call
    case BrowserCall(_) => Browser
    case EnvCall => Env
    case ExitCall => Exit
    case HelpCall(_) => Help
    case LsCall(_) => Ls
    case PingCall(_) => Ping
    case RtCall(_) => Rt
    case LogsCall(_) => Logs
    case PauseCall(_, _) => Pause
    case AddCall(_) => Add
    case RmCall(_) => Rm
    case RebootCall(_) => Reboot
  }

  /** What a body did, in order, and how it ended. */
  datatype Trace = Trace(events: seq<Event>, outcome: Outcome)

  /** `repr` of an optional argument: `None`, or the quoted string. */
  function ReprOption(s: Option<string>): string
  {
    match s
    case None => "None"
    case Some(v) => PyRepr(v)
  }

  /** `"Machine {!r} not found".format(machine)`, with the argument as given, not defaulted. */
  function NotFoundMessage(machine: Option<string>): (m: string)
    ensures machine.None? ==> m == "Machine None not found"
  {
    "Machine " + ReprOption(machine) + " not found"
  }

  /**
   * `browser`, `ping`, `logs` and `pause`: run the action on every machine
   * named, and refuse a name that picks none. The only exceptions are that
   * refusal, quoting the argument as typed, and the AttributeError of a
   * `None` key or machine.
   */
  function MachineTrace(a: Action, machine: Option<string>, snap: Snapshot): (t: Trace)
    ensures t.outcome.Raised? ==>
      t.outcome.exc == BadParameter(NotFoundMessage(machine)) || t.outcome.exc.AttributeError?
  {
    var p := ForEach(a, Target(machine), snap);
    match p.outcome
    case Ok(n) => Trace(p.events, if n == 0 then Raised(BadParameter(NotFoundMessage(machine))) else Returned)
    case Err(e) => Trace(p.events, Raised(e))
  }

  /**
   * The "not found" rule: the BadParameter carrying the argument as typed
   * is raised exactly when no key is `None` and no spec has the defaulted
   * token as its short or fully-qualified name.
   */
  lemma NotFoundIff(a: Action, machine: Option<string>, snap: Snapshot)
    ensures MachineTrace(a, machine, snap).outcome == Raised(BadParameter(NotFoundMessage(machine)))
        <==> !HasNoneKey(snap) && MatchingIndices(Target(machine), snap) == {}
  {
    ForEachZeroIff(a, Target(machine), snap);
  }

  /** A machine command that ends normally ran its action once per spec named. */
  lemma MachineTraceCount(a: Action, machine: Option<string>, snap: Snapshot)
    requires MachineTrace(a, machine, snap).outcome.Returned?
    ensures ForEach(a, Target(machine), snap).outcome.Ok?
    ensures ForEach(a, Target(machine), snap).outcome.value == |MatchingIndices(Target(machine), snap)| > 0
  {
    ForEachCount(a, Target(machine), snap);
  }

  const LsHeader := "NAME        CONTAINER   MODE           BOLT PORT   HTTP PORT   DEBUG PORT"

  /** `spec.config.get("dbms.mode", "SINGLE")`. */
  function Mode(sp: Spec): (m: string)
    ensures "dbms.mode" in sp.config ==> m == sp.config["dbms.mode"]
    ensures "dbms.mode" !in sp.config ==> m == "SINGLE"
  {
    if "dbms.mode" in sp.config then sp.config["dbms.mode"] else "SINGLE"
  }

  /**
   * One `ls` row: `"{:<12}{:<12}{:<15}{:<12}{:<12}{}"`. It starts with the
   * fully-qualified name, ends with the debug port, and its five padded
   * columns take at least 63 characters.
   */
  function LsRow(sp: Spec, m: Machine): (r: string)
    ensures |r| >= 63 + |NatStr(sp.debugPort)| && |r| >= |sp.fqName| + 51 + |NatStr(sp.debugPort)|
    ensures r[..|sp.fqName|] == sp.fqName
    ensures r[|r| - |NatStr(sp.debugPort)|..] == NatStr(sp.debugPort)
  {
    var columns := PadRight(sp.fqName, 12) + PadRight(m.container.shortId, 12) + PadRight(Mode(sp), 15)
      + PadRight(NatStr(sp.boltPort), 12) + PadRight(NatStr(sp.httpPort), 12);
    assert columns[..|sp.fqName|] == PadRight(sp.fqName, 12)[..|sp.fqName|];
    columns + NatStr(sp.debugPort)
  }

  predicate Listed(e: Entry)
  {
    e.spec.Some? && e.machine.Some?
  }

  /** The entries `ls` prints a row for: those with both a spec and a machine, in mapping order. */
  function Listing(snap: Snapshot): (r: seq<Entry>)
    ensures forall j :: 0 <= j < |r| ==> Listed(r[j])
  {
    if snap == [] then []
    else
      var e := snap[|snap| - 1];
      Listing(snap[..|snap| - 1]) + if Listed(e) then [e] else []
  }

  /** The row an entry with both a spec and a machine gets. */
  function RowOf(e: Entry): string
    requires Listed(e)
  {
    LsRow(e.spec.value, e.machine.value)
  }

  /** The lines `ls` prints after its header. */
  function LsRows(snap: Snapshot): seq<Event>
  {
    if snap == [] then []
    else
      var e := snap[|snap| - 1];
      LsRows(snap[..|snap| - 1]) + if Listed(e) then [Stdout(RowOf(e))] else []
  }

  /** `ls`: the header, then the row of each listed entry in mapping order; it always returns. */
  function LsTrace(snap: Snapshot): (t: Trace)
    ensures t.outcome == Returned
    ensures |t.events| == 1 + |Listing(snap)| && t.events[0] == Stdout(LsHeader)
    ensures forall j :: 0 <= j < |Listing(snap)| ==> t.events[1 + j] == Stdout(RowOf(Listing(snap)[j]))
  {
    LsRowsAt(snap);
    AfterHeading(Stdout(LsHeader), LsRows(snap));
    Trace([Stdout(LsHeader)] + LsRows(snap), Returned)
  }

  /** An entry gets a row exactly when it has both a spec and a machine. */
  lemma {:induction false} ListingExactly(snap: Snapshot, e: Entry)
    ensures e in Listing(snap) <==> e in snap && Listed(e)
  {
    if snap != [] {
      var s := snap[..|snap| - 1];
      ListingExactly(s, e);
      assert snap == s + [snap[|snap| - 1]];
    }
  }

  /** `ls` prints one row per listed entry. */
  lemma {:induction false} ListingCount(snap: Snapshot)
    ensures |Listing(snap)| == |set i | 0 <= i < |snap| && Listed(snap[i])|
  {
    if snap != [] {
      var s := snap[..|snap| - 1];
      ListingCount(s);
      assert forall i :: 0 <= i < |s| ==> s[i] == snap[i];
      var e := snap[|snap| - 1];
      assert (set i | 0 <= i < |snap| && Listed(snap[i]))
          == (set i | 0 <= i < |s| && Listed(s[i])) + (if Listed(e) then {|s|} else {});
    }
  }

  /** Row j is the row of the j-th listed entry, and there are no other lines. */
  lemma {:induction false} LsRowsAt(snap: Snapshot)
    ensures |LsRows(snap)| == |Listing(snap)|
    ensures forall j :: 0 <= j < |Listing(snap)| ==> LsRows(snap)[j] == Stdout(RowOf(Listing(snap)[j]))
  {
    if snap != [] {
      LsRowsAt(snap[..|snap| - 1]);
    }
  }

  /** One more entry adds its row, if it has one, at the end. */
  lemma LsRowsSnoc(s: Snapshot, e: Entry)
    ensures LsRows(s + [e]) == LsRows(s) + if Listed(e) then [Stdout(RowOf(e))] else []
  {
    assert (s + [e])[..|s + [e]| - 1] == s;
  }

  /** The step of the `ls` loop at key `i`. */
  lemma LsRowsStep(items: Snapshot, i: nat)
    requires i < |items|
    ensures LsRows(items[..i + 1]) == LsRows(items[..i]) + if Listed(items[i]) then [Stdout(RowOf(items[i]))] else []
  {
    LsRowsSnoc(items[..i], items[i]);
    assert items[..i + 1] == items[..i] + [items[i]];
  }

  /**
   * When every field fits its column, the columns of an `ls` row start at
   * 0, 12, 24, 39, 51 and 63, each left-aligned and padded with blanks.
   */
  lemma LsColumns(sp: Spec, m: Machine)
    requires |sp.fqName| <= 12 && |m.container.shortId| <= 12 && |Mode(sp)| <= 15
    requires |NatStr(sp.boltPort)| <= 12 && |NatStr(sp.httpPort)| <= 12
    ensures var row := LsRow(sp, m);
      |row| == 63 + |NatStr(sp.debugPort)| &&
      row[0..12] == PadRight(sp.fqName, 12) &&
      row[12..24] == PadRight(m.container.shortId, 12) &&
      row[24..39] == PadRight(Mode(sp), 15) &&
      row[39..51] == PadRight(NatStr(sp.boltPort), 12) &&
      row[51..63] == PadRight(NatStr(sp.httpPort), 12) &&
      row[63..] == NatStr(sp.debugPort)
  {
    var c1, c2, c3 := PadRight(sp.fqName, 12), PadRight(m.container.shortId, 12), PadRight(Mode(sp), 15);
    var c4, c5, c6 := PadRight(NatStr(sp.boltPort), 12), PadRight(NatStr(sp.httpPort), 12), NatStr(sp.debugPort);
    var row := LsRow(sp, m);
    assert row == c1 + c2 + c3 + c4 + c5 + c6;
    assert |c1| == 12 && |c2| == 12 && |c3| == 15 && |c4| == 12 && |c5| == 12;
  }

  /** The summary `help` shows for a command name. */
  function Summary(attrs: Attributes, name: string): string
    requires IsCommand(attrs, name)
  {
    ShortHelp(attrs[name].id)
  }

  /** `template.format(arg0, line)` with `template = "  {:<w}   {}"`. */
  function HelpLine(name: string, summary: string, w: nat): string
  {
    "  " + PadRight(name, w) + "   " + summary
  }

  /** The longest name: `max(map(len, names))`. */
  function MaxLen(names: seq<string>): (w: nat)
    requires names != []
    ensures forall i :: 0 <= i < |names| ==> |names[i]| <= w
    ensures exists i :: 0 <= i < |names| && |names[i]| == w
  {
    if |names| == 1 then |names[0]|
    else
      var w' := MaxLen(names[1..]);
      assert forall i :: 1 <= i < |names| ==> names[i] == names[1..][i - 1];
      if |names[0]| > w' then |names[0]| else w'
  }

  function HelpRows(attrs: Attributes, names: seq<string>, w: nat): seq<Event>
    requires forall i :: 0 <= i < |names| ==> IsCommand(attrs, names[i])
  {
    if names == [] then []
    else
      var n := names[|names| - 1];
      HelpRows(attrs, names[..|names| - 1], w) + [Stdout(HelpLine(n, Summary(attrs, n), w))]
  }

  /** Row j of the listing is the line of the j-th name. */
  lemma {:induction false} HelpRowsAt(attrs: Attributes, names: seq<string>, w: nat)
    requires forall i :: 0 <= i < |names| ==> IsCommand(attrs, names[i])
    ensures |HelpRows(attrs, names, w)| == |names|
    ensures forall j :: 0 <= j < |names| ==>
      HelpRows(attrs, names, w)[j] == Stdout(HelpLine(names[j], Summary(attrs, names[j]), w))
  {
    if names != [] {
      var s := names[..|names| - 1];
      HelpRowsAt(attrs, s, w);
      var rows := HelpRows(attrs, names, w);
      assert rows == HelpRows(attrs, s, w) + [rows[|s|]];
      forall j | 0 <= j < |s|
        ensures rows[j] == Stdout(HelpLine(names[j], Summary(attrs, names[j]), w))
      {
        assert s[j] == names[j];
      }
    }
  }

  /** One more name adds its line at the end. */
  lemma HelpRowsSnoc(attrs: Attributes, names: seq<string>, i: nat, w: nat)
    requires forall j :: 0 <= j < |names| ==> IsCommand(attrs, names[j])
    requires i < |names|
    ensures HelpRows(attrs, names[..i + 1], w)
         == HelpRows(attrs, names[..i], w) + [Stdout(HelpLine(names[i], Summary(attrs, names[i]), w))]
  {
    assert names[..i + 1][..i] == names[..i];
  }

  /**
   * `help` with no command: "Commands:" and one aligned line per command
   * name in sorted order. With no command at all, `max` of an empty
   * sequence raises ValueError after the heading.
   */
  ghost function ListTrace(attrs: Attributes): (t: Trace)
    ensures |t.events| == 1 + |CommandNames(attrs)| && t.events[0] == Stdout("Commands:")
    ensures t.outcome.Raised? <==> CommandNames(attrs) == {}
    ensures t.outcome.Raised? ==> t.outcome.exc == ValueError("max() arg is an empty sequence")
  {
    var names := Sorted(CommandNames(attrs));
    assert forall i :: 0 <= i < |names| ==> names[i] in CommandNames(attrs);
    if names == [] then Trace([Stdout("Commands:")], Raised(ValueError("max() arg is an empty sequence")))
    else
      HelpRowsAt(attrs, names, MaxLen(names));
      Trace([Stdout("Commands:")] + HelpRows(attrs, names, MaxLen(names)), Returned)
  }

  /** The listing, computed from any increasing sequence of exactly the command names. */
  lemma ListTraceOf(attrs: Attributes, names: seq<string>)
    requires StrictlySorted(names)
    requires forall n :: n in names <==> IsCommand(attrs, n)
    ensures forall j :: 0 <= j < |names| ==> IsCommand(attrs, names[j])
    ensures names == [] ==>
      ListTrace(attrs) == Trace([Stdout("Commands:")], Raised(ValueError("max() arg is an empty sequence")))
    ensures names != [] ==>
      ListTrace(attrs) == Trace([Stdout("Commands:")] + HelpRows(attrs, names, MaxLen(names)), Returned)
  {
    SortedUnique(names, Sorted(CommandNames(attrs)));
  }

  /**
   * `help [command]`: with a non-empty argument, click's help of that
   * command (or the registry's BadParameter); otherwise the listing.
   */
  ghost function HelpTrace(attrs: Attributes, command: Option<string>): (t: Trace)
    ensures command.Some? && command.value != "" ==>
      (t.outcome.Returned? <==> IsCommand(attrs, command.value)) &&
      (t.outcome.Returned? ==> t.events == [HelpText(command.value, command.value)]) &&
      (t.outcome.Raised? ==> t.events == [] && t.outcome.exc == BadParameter(NoSuchCommand(command.value)))
    ensures command.None? || command.value == "" ==> t == ListTrace(attrs)
  {
    if command.Some? && command.value != "" then
      match Lookup(attrs, command.value)
      case Err(e) => Trace([], Raised(e))
      case Ok(c) => Trace([HelpText(command.value, command.value)], Returned)
    else ListTrace(attrs)
  }

  /**
   * Given the command names in increasing order (there is only one such
   * sequence), the listing is the heading and then exactly one line per
   * name, in that order, each padded to the longest name.
   */
  lemma HelpListing(attrs: Attributes, names: seq<string>)
    requires StrictlySorted(names) && forall n :: n in names <==> IsCommand(attrs, n)
    requires names != []
    ensures var t := ListTrace(attrs);
      t.outcome == Returned &&
      |t.events| == 1 + |names| && t.events[0] == Stdout("Commands:") &&
      forall j :: 0 <= j < |names| ==>
        t.events[1 + j] == Stdout(HelpLine(names[j], Summary(attrs, names[j]), MaxLen(names)))
  {
    ListTraceOf(attrs, names);
    var rows := HelpRows(attrs, names, MaxLen(names));
    HelpRowsAt(attrs, names, MaxLen(names));
    AfterHeading(Stdout("Commands:"), rows);
  }

  /** `browser` is a command of the base console and no command name is longer. */
  lemma BaseNameWidths()
    ensures IsCommand(BaseAttributes(), "browser")
    ensures forall n :: IsCommand(BaseAttributes(), n) ==> |n| <= 7
  {
    var base := {"browser", "env", "exit", "help", "ls", "ping", "rt", "logs", "pause"};
    assert CommandNames(BaseAttributes()) == base;
    assert forall n :: n in base ==> |n| <= 7;
  }

  /** `browser` is a command of the cluster console and no command name is longer. */
  lemma ClusterNameWidths()
    ensures IsCommand(ClusterAttributes(), "browser")
    ensures forall n :: IsCommand(ClusterAttributes(), n) ==> |n| <= 7
  {
    BaseNameWidths();
    ExtensionWidths(BaseAttributes());
  }

  /** Adding `add`, `rm` and `reboot` keeps `browser` and lengthens no name beyond 7. */
  lemma ExtensionWidths(base: Attributes)
    requires IsCommand(base, "browser") && forall n :: IsCommand(base, n) ==> |n| <= 7
    ensures IsCommand(base + ClusterExtension(), "browser")
    ensures forall n :: IsCommand(base + ClusterExtension(), n) ==> |n| <= 7
  {
    var ext := ClusterExtension();
    assert ext.Keys == {"add", "rm", "reboot"};
    assert "browser" !in ext;
    forall n | IsCommand(base + ext, n)
      ensures |n| <= 7
    {
      if n !in ext {
        assert IsCommand(base, n);
      }
    }
  }

  /** In both consoles `browser` is a command and no command name is longer. */
  lemma NameWidths(cluster: bool)
    ensures var attrs := if cluster then ClusterAttributes() else BaseAttributes();
            IsCommand(attrs, "browser") && forall n :: IsCommand(attrs, n) ==> |n| <= 7
  {
    if cluster {
      ClusterNameWidths();
    } else {
      BaseNameWidths();
    }
  }

  /**
   * In both consoles the longest command name is `browser`, so `help`'s
   * summaries get `73 - 7` characters, and every summary fits in that: the
   * truncation of `get_short_help_str` never applies.
   */
  lemma SummariesFit(cluster: bool, names: seq<string>)
    requires var attrs := if cluster then ClusterAttributes() else BaseAttributes();
             forall n :: n in names <==> IsCommand(attrs, n)
    ensures names != [] && MaxLen(names) == 7
    ensures var attrs := if cluster then ClusterAttributes() else BaseAttributes();
            forall j :: 0 <= j < |names| ==>
              IsCommand(attrs, names[j]) && |Summary(attrs, names[j])| <= 73 - MaxLen(names)
  {
    NameWidths(cluster);
    WidthSeven(if cluster then ClusterAttributes() else BaseAttributes(), names);
  }

  /** Listed with names of at most 7 characters, one of them 7 long, every summary fits. */
  lemma WidthSeven(attrs: Attributes, names: seq<string>)
    requires forall n :: n in names <==> IsCommand(attrs, n)
    requires IsCommand(attrs, "browser") && forall n :: IsCommand(attrs, n) ==> |n| <= 7
    ensures names != [] && MaxLen(names) == 7
    ensures forall j :: 0 <= j < |names| ==>
              IsCommand(attrs, names[j]) && |Summary(attrs, names[j])| <= 73 - MaxLen(names)
  {
    assert "browser" in names;
    assert forall j :: 0 <= j < |names| ==> names[j] in names;
    forall j | 0 <= j < |names|
      ensures |Summary(attrs, names[j])| <= 66
    {
      SummaryLength(attrs[names[j]].id);
    }
  }

  /** The longest summary is `help`'s, 54 characters. */
  lemma SummaryLength(id: CommandId)
    ensures |ShortHelp(id)| <= 54
  {
    match id
    case Browser =>
    case Env =>
    case Exit =>
    case Help =>
    case Ls =>
    case Ping =>
    case Rt =>
    case Logs =>
    case Pause =>
    case Add =>
    case Rm =>
    case Reboot =>
  }

  /** The lines after a heading are the lines listed, one place further on. */
  lemma AfterHeading(heading: Event, rows: seq<Event>)
    ensures |[heading] + rows| == 1 + |rows| && ([heading] + rows)[0] == heading
    ensures forall j :: 0 <= j < |rows| ==> ([heading] + rows)[1 + j] == rows[j]
  {
  }

  /** `add MODE`: which of the Service's two additions a mode token asks for. */
  datatype AddKind = CoreKind | ReplicaKind | InvalidKind

  /** The synonym table of `add`: two spellings of core, five of read replica. */
  function AddMode(mode: string): (k: AddKind)
    ensures k == CoreKind <==> mode == "c" || mode == "core"
    ensures k == ReplicaKind <==>
      mode == "r" || mode == "rr" || mode == "replica" || mode == "read-replica" || mode == "read_replica"
  {
    if mode in ["c", "core"] then CoreKind
    else if mode in ["r", "rr", "replica", "read-replica", "read_replica"] then ReplicaKind
    else InvalidKind
  }

  const InvalidModeMessage := "Invalid value for \"MODE\", choose from \"core\" or \"read-replica\""

  /**
   * `add MODE`: `c`/`core` calls `add_core` once, the five replica spellings
   * call `add_replica` once, and any other mode calls nothing and raises a
   * BadParameter whose text does not depend on the mode.
   */
  function AddTrace(mode: string): (t: Trace)
    ensures t.events == [ServiceAddCore] <==> mode == "c" || mode == "core"
    ensures t.events == [ServiceAddReplica] <==>
      mode == "r" || mode == "rr" || mode == "replica" || mode == "read-replica" || mode == "read_replica"
    ensures t.outcome.Raised? <==> t.events == []
    ensures t.outcome.Raised? ==> t.outcome.exc == BadParameter(InvalidModeMessage)
  {
    match AddMode(mode)
    case CoreKind => Trace([ServiceAddCore], Returned)
    case ReplicaKind => Trace([ServiceAddReplica], Returned)
    case InvalidKind => Trace([], Raised(BadParameter(InvalidModeMessage)))
  }

  /** `rm MACHINE`: one call to `service.remove`; a falsy answer is "not found". */
  function RemoveTrace(service: Service, target: string): (t: Trace)
    ensures t.events == [ServiceRemove(target)]
    ensures t.outcome.Raised? <==> target !in service.removable
    ensures t.outcome.Raised? ==> t.outcome.exc == BadParameter(NotFoundMessage(Some(target)))
  {
    Trace([ServiceRemove(target)],
          if target in service.removable then Returned else Raised(BadParameter(NotFoundMessage(Some(target)))))
  }

  /** `reboot MACHINE`: one call to `service.reboot`; a falsy answer is "not found". */
  function RebootTrace(service: Service, target: string): (t: Trace)
    ensures t.events == [ServiceReboot(target)]
    ensures t.outcome.Raised? <==> target !in service.rebootable
    ensures t.outcome.Raised? ==> t.outcome.exc == BadParameter(NotFoundMessage(Some(target)))
  {
    Trace([ServiceReboot(target)],
          if target in service.rebootable then Returned else Raised(BadParameter(NotFoundMessage(Some(target)))))
  }

  /**
   * The trace of a bound command's body. Besides click's BadParameter, a
   * body raises only `exit`'s SystemExit, the AttributeError of a machine
   * command that meets a `None` key or machine, and the ValueError of a
   * listing without commands.
   */
  ghost function BodyTrace(call: Call, service: Service, attrs: Attributes): (t: Trace)
    ensures t.outcome.Raised? ==>
      t.outcome.exc.BadParameter? || t.outcome.exc.SystemExit? || t.outcome.exc.AttributeError?
      || t.outcome.exc.ValueError?
    ensures t.outcome == Raised(SystemExit) <==> call.ExitCall?
    ensures t.outcome.Raised? && t.outcome.exc.AttributeError? ==> CommandOf(call) in {Browser, Ping, Logs, Pause}
    ensures t.outcome.Raised? && t.outcome.exc.ValueError? ==> call.HelpCall? && CommandNames(attrs) == {}
  {
    match call
    case BrowserCall(m) => MachineTrace(BrowserAction, m, service.machines)
    case EnvCall => Trace([ShowEnv], Returned)
    case ExitCall => Trace([], Raised(SystemExit))
    case HelpCall(c) => HelpTrace(attrs, c)
    case LsCall(_) => LsTrace(service.machines)
    case PingCall(m) => MachineTrace(PingAction, m, service.machines)
    case RtCall(g) => Trace([ShowRoutingTable(g)], Returned)
    case LogsCall(m) => MachineTrace(LogsAction, m, service.machines)
    case PauseCall(time, m) => MachineTrace(PauseAction(time), m, service.machines)
    case AddCall(mode) => AddTrace(mode)
    case RmCall(target) => RemoveTrace(service, target)
    case RebootCall(target) => RebootTrace(service, target)
  }
}
