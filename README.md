# grolt console — a Dafny model

`grolt/console.py` is the interactive console of grolt, a tool that runs
Neo4j clusters in Docker. It reads command lines, dispatches them through
click to command methods on a `Neo4jConsole` (or `Neo4jClusterConsole`),
and reports the user's errors without leaving the loop. This project
models the console's dispatch and target-resolution logic and proves what
it does:

- `wrappers.dfy`: `Option` and `Result`.
- `text.dfy`: the text the console prints. It covers `{:<w}` padding, the
  decimal form of a port, Python's `repr` of a string, Python's order on
  `str`, and `sorted` of a set of names.
- `cluster.dfy`: what the console sees of a cluster. The Service's
  spec-to-machine mapping is an ordered sequence of entries whose key or
  value may be `None`. It also holds the exceptions that travel through a
  command and the observable effects (`Event`), from echoed lines to calls
  on the Service, its machines and their containers.
- `resolver.dfy`: `_iter_machines` and `_for_each_machine` as functions.
  `Resolve` is the lazy generator over a snapshot of the keys. `ForEach`
  is the counting loop over it. Both come with the lemmas on counts,
  order, errors and `pause`'s event order.
- `registry.dfy`: the console's attributes and `__getitem__`.
- `commands.dfy`: each command body as a `Trace`, meaning the effects it
  has, in order, and how it ends (it returns, or raises).
- `console.dfy`: the three exception tiers of `invoke` and the read loop
  `run`, as functions. It also holds the class `Neo4jConsole`. Its
  methods run the loops step by step (`__iter__`, `_for_each_machine`,
  `ls`, `help`, `run`) and update the field `args` and the effect log.
  Each method is proved to produce exactly the trace its function
  specifies.

The class has one field for the outside world, `log`: everything echoed
to standard output or error, and every call made on the Service, its
machines and their containers, in order. Methods modify only `log` (and
`run` also modifies `args`). The model keeps the Service constant (see
"## Left out"): `add`, `rm` and `reboot` change the cluster's topology
in the source, and here they only record their calls. For the resolver
and `ls`, which only read the mapping, this matches the source.

click's argument binding is a parameter of `invoke` and `run`, a
`Binder`. Every statement about them assumes `Dispatches`: the call
click binds belongs to the command the first word named, and a refusal
is a ClickException. With that, invoking a command runs that command's
body (`Console.InvokeRunsNamed`).

`run` tests the raw line; it does not trim it. A line of blanks is
therefore dispatched and split into no words, and `invoke()`'s `args[0]`
raises an IndexError that no clause catches, so it ends `run`
(`Console.BlankLineEscapes`). A reading of the loop that trims the line
first would ignore such a line; the model follows the code.

## Model

| member | source | states |
|---|---|---|
| Text.PadRight | grolt/console.py:202 | `{:<w}` keeps the whole text, never truncates, and pads with blanks up to `w` characters |
| Text.NatStrRoundTrip | grolt/console.py:206-208 | the decimal text printed for a port reads back as that port number |
| Text.NatStr | grolt/console.py:206-208 | the decimal text of a port is non-empty, all digits, and has no leading zero |
| Text.PyRepr | grolt/console.py:120-121 | `repr` is quoted at both ends, with double quotes exactly when the text has a single quote and no double quote |
| Text.ReprPlain | grolt/console.py:125 | a name without quotes, backslashes or control characters is shown as `'name'` |
| Text.BelowIrreflexive | grolt/console.py:168 | no name sorts before itself |
| Text.BelowTransitive | grolt/console.py:168 | Python's order on names is transitive |
| Text.BelowTotal | grolt/console.py:168 | any two different names are ordered one way or the other |
| Text.LeastExists | grolt/console.py:168 | every non-empty set of names has a least one |
| Text.Sorted | grolt/console.py:168 | `sorted` of a set of names is strictly increasing and has exactly its elements |
| Text.SortedUnique | grolt/console.py:168 | two strictly increasing sequences with the same elements are equal, so the sorted order is unique |
| Resolver.Target | grolt/console.py:65-66 | a missing or empty name becomes `"a"`; any other name is kept |
| Resolver.Named | grolt/console.py:68 | a spec is picked exactly when the token is its short or its fully-qualified name |
| Resolver.Resolve | grolt/console.py:67-69 | the generator yields at most one machine per key of the snapshot |
| Resolver.ResolveAppend | grolt/console.py:67-69 | walking two stretches of keys is walking the first, then the second unless the first broke off |
| Resolver.ResolveBroken | grolt/console.py:67-69 | the walk raises exactly when some key is `None` |
| Resolver.ResolveCount | grolt/console.py:64-69 | without a `None` key, one machine is yielded per spec whose name or fully-qualified name is the token |
| Resolver.ResolveInOrder | grolt/console.py:64-69 | without a `None` key, the yielded machines are those of the matching keys, each once, in key order |
| Resolver.Effects | grolt/console.py:119-122 | each of the four per-machine actions has at least one effect |
| Resolver.Applied | grolt/console.py:73-75 | a loop that ends normally counts every item; one that raises does so on `None`'s first attribute the action reads |
| Resolver.ForEach | grolt/console.py:71-76 | the only exception that leaves `_for_each_machine` is an AttributeError |
| Resolver.Visit | grolt/console.py:67-75 | one key: only a named key with a live machine has effects and is counted; a `None` key, or a named key whose machine is `None`, raises AttributeError; any other key is passed over |
| Resolver.AppliedAppend | grolt/console.py:73-75 | the loop over two stretches of items is the loop over the first, then the second with the count carried on |
| Resolver.ForEachSnoc | grolt/console.py:71-76 | one more key adds exactly what visiting that key adds |
| Resolver.ForEachErrStable | grolt/console.py:73-74 | once the loop has raised, later keys change nothing |
| Resolver.ForEachStep | grolt/console.py:73-75 | the loop step at key `i` extends the pass over the first `i` keys, and a raise there is the result of the whole pass |
| Resolver.ForEachZeroIff | grolt/console.py:71-76 | the count is 0 exactly when no key is `None` and no spec has the token as a name |
| Resolver.ForEachCount | grolt/console.py:71-76 | a pass that ends normally returns the number of matching specs, and each had a live machine |
| Resolver.AppliedAllLive | grolt/console.py:73-74 | a loop that ends normally met no `None` machine |
| Resolver.PauseLength | grolt/console.py:269-275 | a `pause` pass that ends normally has exactly five effects per machine |
| Resolver.PauseBlock | grolt/console.py:269-275 | the j-th machine's effects are events 5j to 5j+4 |
| Resolver.PauseInBlocks | grolt/console.py:269-275 | the machines' effects come in consecutive blocks of five and never interleave |
| Resolver.PauseOrder | grolt/console.py:263-278 | for the j-th machine picked, in key order, the effects are the echo, `container.pause()`, `sleep(time)`, `container.unpause()` and `ping(timeout=0)` |
| Registry.Lookup | grolt/console.py:53-62 | returns the command exactly for the names bound to a command; every other name, missing or not a command, gets the same `No such command "<name>".` |
| Registry.CommandNames | grolt/console.py:48-51 | the names are exactly the attributes bound to a command |
| Registry.BaseAttributes | grolt/console.py:40-278 | a `Neo4jConsole`'s commands are exactly `browser`, `env`, `exit`, `help`, `ls`, `ping`, `rt`, `logs` and `pause`, with `exit` and `help` bound to their own bodies |
| Registry.ClusterAttributes | grolt/console.py:281-326 | the cluster console binds `add`, `rm` and `reboot` to their own bodies |
| Registry.Extend | grolt/console.py:281 | a subclass that adds commands under new names keeps every inherited binding |
| Registry.ClusterExtendsBase | grolt/console.py:281-326 | the cluster console's commands are the base ones plus `add`, `rm` and `reboot` |
| Registry.ExitRegistered | grolt/console.py:142-147 | `exit` is a command of both consoles |
| Cluster.FormatMessage | grolt/console.py:105-106 | a BadParameter raised without a parameter is reported as `Invalid value: <message>` |
| Commands.NotFoundMessage | grolt/console.py:125 | the message quotes the argument as typed, so a missing one reads `Machine None not found` |
| Commands.NotFoundIff | grolt/console.py:124-125 | the machine commands raise the not-found BadParameter exactly when no key is `None` and no spec has the defaulted token as a name |
| Commands.MachineTrace | grolt/console.py:119-125 | `browser` (and likewise `ping` at 219-223, `logs` at 253-257 and `pause` at 269-278) raises only the not-found BadParameter quoting the argument as typed, or the AttributeError of a `None` key or machine |
| Commands.MachineTraceCount | grolt/console.py:222-223 | a machine command that returns normally ran its action once per matching spec, at least once |
| Commands.Mode | grolt/console.py:205 | the mode column is `dbms.mode` from the config, or `SINGLE` without it |
| Commands.LsRow | grolt/console.py:202-209 | a row starts with the fully-qualified name, ends with the debug port, and its five padded columns take at least 63 characters |
| Commands.LsTrace | grolt/console.py:197-209 | `ls` always returns; it prints the header and then exactly one row per entry with both a spec and a machine, in mapping order |
| Commands.Listing | grolt/console.py:199-201 | every entry `ls` prints has both a spec and a machine |
| Commands.ListingExactly | grolt/console.py:199-201 | an entry gets a row exactly when it has both a spec and a machine |
| Commands.ListingCount | grolt/console.py:199-209 | the number of rows is the number of entries with both a spec and a machine |
| Commands.LsRowsAt | grolt/console.py:199-209 | the j-th row after the header is the row of the j-th listed entry, and there are no other lines |
| Commands.LsRowsSnoc | grolt/console.py:199-209 | one more entry adds its row, if it gets one, at the end |
| Commands.LsColumns | grolt/console.py:202-209 | when the fields fit, the columns start at 0, 12, 24, 39, 51 and 63, each left-aligned and padded |
| Commands.MaxLen | grolt/console.py:165 | the width is the length of some name and no name is longer |
| Commands.SummaryLength | grolt/console.py:170 | every command's summary, the first sentence of its docstring, has at most 54 characters |
| Commands.NameWidths | grolt/console.py:165 | in both consoles `browser` is a command and no command name is longer |
| Commands.SummariesFit | grolt/console.py:165-170 | in both consoles the width is 7 and every summary fits in the `73 - width` characters it is given, so none is truncated |
| Commands.HelpRowsAt | grolt/console.py:168-175 | line j of the listing shows the j-th name and its summary, padded to the width |
| Commands.ListTraceOf | grolt/console.py:164-175 | any increasing sequence of exactly the command names gives the listing; with no command, `max` raises ValueError after the heading |
| Commands.HelpListing | grolt/console.py:164-175 | the listing is "Commands:" and then exactly one line per command name, in sorted order, padded to the longest name |
| Commands.ListTrace | grolt/console.py:164-175 | the listing is the heading and one line per command name; it raises ValueError (`max` of nothing) exactly when there is no command |
| Commands.HelpTrace | grolt/console.py:155-175 | with a non-empty argument, that command's help exactly when it names a command, and otherwise the registry's BadParameter with nothing printed; with none, the listing |
| Commands.AddTrace | grolt/console.py:296-302 | `c`/`core` calls `add_core` once; the five replica spellings call `add_replica` once; any other mode calls nothing and raises a BadParameter whose text does not depend on the mode |
| Commands.RemoveTrace | grolt/console.py:313-314 | `rm` calls `remove` once and raises not-found exactly when the answer is falsy |
| Commands.RebootTrace | grolt/console.py:325-326 | `reboot` calls `reboot` once and raises not-found exactly when the answer is falsy |
| Commands.AddMode | grolt/console.py:296-299 | `c` and `core` mean core, the five replica spellings mean read replica, and anything else is invalid |
| Commands.BodyTrace | grolt/console.py:102 | besides BadParameter, a body raises only SystemExit (exactly `exit`), an AttributeError (only a machine command) or a ValueError (only `help` without commands) |
| Console.Settle | grolt/console.py:103-106 | click's `Exit` is swallowed; a ClickException adds exactly one line on standard error and returns; anything else leaves `invoke` unchanged |
| Console.InvokeTrace | grolt/console.py:97-106 | no words escape with IndexError, and whatever escapes `invoke` is never click's: IndexError, SystemExit, AttributeError or ValueError |
| Console.InvokeRunsNamed | grolt/console.py:99-102 | the call click binds belongs to the command the first word names, and `invoke` settles exactly that body's trace |
| Console.HelpFlagShowsHelp | grolt/console.py:101-104 | `--help` prints that command's help, and the `Exit` click raises after it is swallowed |
| Console.UnknownCommandReported | grolt/console.py:97-106 | a first word that is not a command costs one error line `Invalid value: No such command "<word>".` and nothing else |
| Console.UserErrorsCaught | grolt/console.py:102-106 | a body that raises a ClickException has its effects kept, one error line added, and `invoke` returns |
| Console.ExitEscapes | grolt/console.py:144-147 | whenever click binds `exit`'s empty word list, SystemExit passes `invoke` in both consoles, with no effect |
| Console.BlankLineEscapes | grolt/console.py:93-95 | a non-empty line with no words stores no words in `args` and ends `run` with IndexError |
| Console.TurnTrace | grolt/console.py:92-95 | an empty line does nothing; a line that splits sets `args` to its words; what escapes is never click's |
| Console.RunTrace | grolt/console.py:90-95 | `run` ends only at the end of input (EOFError) or with an exception that is not click's |
| Console.EmptyLinesIgnored | grolt/console.py:90-95 | empty lines do nothing: no split, no `invoke`, `args` unchanged |
| Console.RunEndsAtEof | grolt/console.py:90-95 | when no line raises past `invoke`, `run` ends only at the end of input |
| Console.RunStopsAtFirstEscape | grolt/console.py:90-95 | `run` stops at the first line that raises past `invoke`, with that exception |
| Console.RunStep | grolt/console.py:91-95 | one turn of the loop either ends `run` or hands the rest of the input to the next turn |
| Console.Neo4jConsole.constructor | grolt/console.py:45-46 | a new console holds its Service and its class's attributes, with `args` None and nothing done |
| Console.Neo4jConsole.Iter | grolt/console.py:48-51 | yields exactly the names bound to a command, each once, in increasing order |
| Console.Neo4jConsole.VisitKey | grolt/console.py:67-75 | one key of the walk: a `None` key raises, a matching key runs the action and is counted |
| Console.Neo4jConsole.ForEachMachine | grolt/console.py:64-76 | effects and result are those of `ForEach` on the defaulted token |
| Console.Neo4jConsole.Walk | grolt/console.py:71-76 | the counting loop over the key snapshot has the effects and result of `ForEach` |
| Console.Neo4jConsole.OnMachines | grolt/console.py:124-125 | a machine command runs the walk and raises not-found on a count of 0 |
| Console.Neo4jConsole.Ls | grolt/console.py:197-209 | prints the header and then the rows of `LsRows`, in mapping order |
| Console.Neo4jConsole.EchoRow | grolt/console.py:199-209 | a key is skipped, or its row echoed, as `Listed` says |
| Console.Neo4jConsole.Help | grolt/console.py:155-175 | a non-empty argument gives that command's help or the registry's BadParameter; otherwise the listing |
| Console.Neo4jConsole.ListCommands | grolt/console.py:164-175 | echoes the heading and the sorted listing, or raises ValueError when there is no command |
| Console.Neo4jConsole.EchoHelpLines | grolt/console.py:168-175 | echoes one line per name in the order given |
| Console.Neo4jConsole.EchoHelpLine | grolt/console.py:169-173 | echoes the name padded to the width, three blanks and its summary, after two blanks |
| Console.Neo4jConsole.Add | grolt/console.py:286-302 | has the effects and outcome of `AddTrace` |
| Console.Neo4jConsole.Rm | grolt/console.py:307-314 | has the effects and outcome of `RemoveTrace` |
| Console.Neo4jConsole.Reboot | grolt/console.py:319-326 | has the effects and outcome of `RebootTrace` |
| Console.Neo4jConsole.Execute | grolt/console.py:102 | running a bound command has the effects and outcome of its body's trace |
| Console.Neo4jConsole.Invoke | grolt/console.py:97-106 | has the effects of `InvokeTrace` and lets out exactly the exception it says |
| Console.Neo4jConsole.Run | grolt/console.py:90-95 | the loop has the effects of `RunTrace`, leaves `args` at the last words split, and stops with the exception it says |
| Console.Neo4jConsole.Step | grolt/console.py:92-95 | an empty line does nothing; a split failure escapes; otherwise `args` gets the words and `invoke` runs once |

## Left out

- `prompt` and the readline import (grolt/console.py:30-38, 78-88): terminal I/O. Input arrives as a sequence of `Line`s, and the end of input is EOFError.
- `shlex_split` (grolt/console.py:94): each `Line` carries its words, or the ValueError message of a line that does not split.
- click's `make_context`, argument binding and the `float` conversion of `time` (grolt/console.py:101): they are a `Binder` parameter. It binds a command's words to that command's call (`Console.Dispatches`), refuses them with a ClickException, or meets `--help`, for which the command's help is printed and `Exit` raised.
- `get_help` (grolt/console.py:161-162): it is the single event `HelpText`, and its text is not modelled.
- `get_short_help_str` (grolt/console.py:170): it is the first sentence of each docstring (`Registry.ShortHelp`). Click's truncation to `73 - width` characters is not modelled; `Commands.SummariesFit` shows that every summary fits within that limit in both consoles.
- `env` and `rt` (grolt/console.py:129-140, 228-242): their output and the router exchange are the events `ShowEnv` and `ShowRoutingTable`. `rt`'s `cx.close()` and its failures are not modelled.
- `open_browser`, `container.logs()`, `pause()`, `unpause()`, `sleep` and `ping`: these are events. Their own failures are not modelled.
- What `add_core`, `add_replica`, `remove` and `reboot` do to the cluster: the Service value does not change. `rm` and `reboot` take the tokens with a truthy answer as given sets.
- Text.PyRepr: non-ASCII characters that Python does not consider printable are written as they are, not as `\x..`/`\u....` escapes.
- The text `str(time)` gives a pause's float is taken as given, not computed.
- Ports are natural numbers, so no negative port is printed.
- KeyboardInterrupt and other asynchronous exceptions.
- The `except KeyError` branch of `help` (grolt/console.py:158-159) cannot be taken, because `__getitem__` raises BadParameter. It is not a separate path.
