/**
 * Target resolution (`_iter_machines` and `_for_each_machine`): a name or
 * role token picks the entries of the Service's mapping whose spec carries
 * that short or fully-qualified name, and an action runs once per pick.
 *
 * The generator is lazy: it walks a snapshot of the mapping's keys in
 * order and yields the machine of each matching key as it reaches it, so
 * the action has already run for the earlier picks when a later key turns
 * out to be `None` (reading `None.name` raises). `Resolve` records what was
 * yielded and whether the walk broke off that way; `ForEach` is what the
 * counting loop makes of it.
 */
module Resolver {
  import opened Wrappers
  import opened Text
  import opened Cluster

  /** `if not name: name = "a"`: a missing or empty token means machine "a". */
  function Target(name: Option<string>): (t: string)
    ensures name.Some? && name.value != "" ==> t == name.value
    ensures name.None? || name.value == "" ==> t == "a"
  {
    if name.None? || name.value == "" then "a" else name.value
  }

  /** `name in (spec.name, spec.fq_name)`: the token is one of the spec's two names. */
  predicate Named(sp: Spec, token: string)
    ensures Named(sp, token) <==> token in [sp.name, sp.fqName]
  {
    token == sp.name || token == sp.fqName
  }

  /** The positions of the snapshot whose spec the token names. */
  function MatchingIndices(token: string, snap: Snapshot): set<int>
  {
    set i | 0 <= i < |snap| && snap[i].spec.Some? && Named(snap[i].spec.value, token)
  }

  /** Whether some key of the snapshot is `None`. */
  predicate HasNoneKey(snap: Snapshot)
  {
    exists i :: 0 <= i < |snap| && snap[i].spec.None?
  }

  /** What the generator yields, and whether it then raised on a `None` key. */
  datatype Yield = Yield(items: seq<Option<Machine>>, broken: bool)

  /** `_iter_machines(token)` over the snapshot, already defaulted. */
  function Resolve(token: string, snap: Snapshot): (y: Yield)
    ensures |y.items| <= |snap|
  {
    if snap == [] then Yield([], false)
    else match snap[0].spec
      case None => Yield([], true)
      case Some(sp) =>
        var rest := Resolve(token, snap[1..]);
        if Named(sp, token) then Yield([snap[0].machine] + rest.items, rest.broken) else rest
  }

  /** The per-machine functions `f` of `browser`, `ping`, `logs` and `pause`. */
  datatype Action = BrowserAction | PingAction | LogsAction | PauseAction(time: Seconds)

  function PausingMessage(m: Machine, time: Seconds): string
  {
    "Pausing machine " + PyRepr(m.spec.fqName) + " for " + time.text + "s"
  }

  /** What `f(m)` does for a live machine, in order. */
  function Effects(a: Action, m: Machine): (es: seq<Event>)
    ensures es != []
  {
    match a
    case BrowserAction =>
      [Stdout("Opening web browser for machine " + PyRepr(m.spec.fqName)
           + " at \U{AB}" + m.spec.httpUri + "\U{BB}"),
       OpenBrowser(m.spec.httpUri)]
    case PingAction => [PingMachine(m, 0)]
    case LogsAction => [EchoLogs(m)]
    case PauseAction(time) =>
      [Stdout(PausingMessage(m, time)), PauseContainer(m), Sleep(time), UnpauseContainer(m), PingMachine(m, 0)]
  }

  /** The first attribute `f` reads from its machine: where `f(None)` raises. */
  function FirstAttribute(a: Action): string
  {
    match a
    case BrowserAction => "spec"
    case PingAction => "ping"
    case LogsAction => "container"
    case PauseAction(_) => "spec"
  }

  /** The effects of a pass and either the number of calls made or the exception that ended it. */
  datatype Pass = Pass(events: seq<Event>, outcome: Result<nat, Exc>)

  function Shift(r: Result<nat, Exc>, n: nat): Result<nat, Exc>
  {
    match r
    case Ok(k) => Ok(k + n)
    case Err(e) => Err(e)
  }

  /** `for machine_obj in items: f(machine_obj); found += 1`. */
  function Applied(a: Action, items: seq<Option<Machine>>): (p: Pass)
    ensures p.outcome.Ok? ==> p.outcome.value == |items|
    ensures p.outcome.Err? ==> p.outcome.error == NoneAttribute(FirstAttribute(a))
  {
    if items == [] then Pass([], Ok(0))
    else match items[0]
      case None => Pass([], Err(NoneAttribute(FirstAttribute(a))))
      case Some(m) =>
        var rest := Applied(a, items[1..]);
        Pass(Effects(a, m) + rest.events, Shift(rest.outcome, 1))
  }

  /** `_for_each_machine(name, f)` once the name is defaulted to `token`. */
  function ForEach(a: Action, token: string, snap: Snapshot): (p: Pass)
    ensures p.outcome.Err? ==> p.outcome.error.AttributeError?
  {
    var y := Resolve(token, snap);
    var p := Applied(a, y.items);
    if p.outcome.Ok? && y.broken then Pass(p.events, Err(NoneAttribute("name"))) else p
  }

  /**
   * What visiting one more key adds to a pass that has counted `n` so far:
   * only a named key with a live machine has effects and is counted, a
   * `None` key or a named `None` machine raises AttributeError, and any
   * other key is passed over.
   */
  function Visit(a: Action, token: string, e: Entry, n: nat): (p: Pass)
    ensures p.outcome == Ok(n + 1) <==> e.spec.Some? && Named(e.spec.value, token) && e.machine.Some?
    ensures p.outcome.Ok? ==> p.outcome.value == n || p.outcome.value == n + 1
    ensures p.events != [] <==> p.outcome == Ok(n + 1)
    ensures p.outcome.Err? <==> e.spec.None? || (Named(e.spec.value, token) && e.machine.None?)
    ensures p.outcome.Err? ==> p.outcome.error.AttributeError?
  {
    match e.spec
    case None => Pass([], Err(NoneAttribute("name")))
    case Some(sp) =>
      if !Named(sp, token) then Pass([], Ok(n))
      else match e.machine
        case None => Pass([], Err(NoneAttribute(FirstAttribute(a))))
        case Some(m) => Pass(Effects(a, m), Ok(n + 1))
  }

  lemma {:induction false} ResolveAppend(token: string, s: Snapshot, u: Snapshot)
    ensures Resolve(token, s + u) ==
      if Resolve(token, s).broken then Resolve(token, s)
      else Yield(Resolve(token, s).items + Resolve(token, u).items, Resolve(token, u).broken)
  {
    if s != [] {
      assert (s + u)[1..] == s[1..] + u;
      ResolveAppend(token, s[1..], u);
      if s[0].spec.Some? && Named(s[0].spec.value, token) {
        var r := Resolve(token, s[1..]);
        if !r.broken {
          assert [s[0].machine] + (r.items + Resolve(token, u).items)
              == ([s[0].machine] + r.items) + Resolve(token, u).items;
        }
      }
    } else {
      assert s + u == u;
    }
  }

  lemma ShiftShift(o: Result<nat, Exc>, n: nat, k: nat)
    ensures Shift(Shift(o, n), k) == Shift(o, n + k)
    ensures Shift(o, 0) == o
  {
    match o {
      case Ok(_) =>
      case Err(_) =>
    }
  }

  lemma {:induction false} AppliedAppend(a: Action, xs: seq<Option<Machine>>, ys: seq<Option<Machine>>)
    ensures Applied(a, xs + ys) ==
      if Applied(a, xs).outcome.Err? then Applied(a, xs)
      else Pass(Applied(a, xs).events + Applied(a, ys).events,
                Shift(Applied(a, ys).outcome, Applied(a, xs).outcome.value))
    decreases |xs|, 1
  {
    var q := Applied(a, ys);
    if xs == [] {
      assert xs + ys == ys;
      ShiftShift(q.outcome, 0, 0);
    } else if xs[0].Some? {
      AppliedConsAppend(a, xs, ys);
    } else {
      assert (xs + ys)[0] == xs[0];
    }
  }

  lemma {:induction false} AppliedConsAppend(a: Action, xs: seq<Option<Machine>>, ys: seq<Option<Machine>>)
    requires xs != [] && xs[0].Some?
    ensures Applied(a, xs + ys) ==
      if Applied(a, xs).outcome.Err? then Applied(a, xs)
      else Pass(Applied(a, xs).events + Applied(a, ys).events,
                Shift(Applied(a, ys).outcome, Applied(a, xs).outcome.value))
    decreases |xs|, 0
  {
    var q := Applied(a, ys);
    var zs := xs + ys;
    assert zs[0] == xs[0];
    assert zs[1..] == xs[1..] + ys;
    AppliedAppend(a, xs[1..], ys);
    AppliedCons(a, xs);
    AppliedCons(a, zs);
    var r := Applied(a, xs[1..]);
    if r.outcome.Ok? {
      AppendTwice(Effects(a, xs[0].value), r.events, q.events);
      ShiftShift(q.outcome, r.outcome.value, 1);
    }
  }

  /** A pass over items that start with a live machine: its effects first, then the rest, counted one further. */
  lemma AppliedCons(a: Action, xs: seq<Option<Machine>>)
    requires xs != [] && xs[0].Some?
    ensures var r := Applied(a, xs[1..]);
            Applied(a, xs) == Pass(Effects(a, xs[0].value) + r.events, Shift(r.outcome, 1))
  {
  }

  /** One step of the counting loop: a pass over `s + [e]` is the pass over `s`, then `Visit`. */
  lemma ForEachSnoc(a: Action, token: string, s: Snapshot, e: Entry)
    requires ForEach(a, token, s).outcome.Ok?
    ensures var p := ForEach(a, token, s);
            var v := Visit(a, token, e, p.outcome.value);
            ForEach(a, token, s + [e]) == Pass(p.events + v.events, v.outcome)
  {
    ResolveAppend(token, s, [e]);
    var y := Resolve(token, s);
    assert !y.broken;
    var ye := Resolve(token, [e]);
    assert [e][1..] == [];
    AppliedAppend(a, y.items, ye.items);
    if e.spec.Some? && Named(e.spec.value, token) && e.machine.Some? {
      assert ye.items == [e.machine];
      assert [e.machine][1..] == [];
      assert Applied(a, ye.items) == Pass(Effects(a, e.machine.value), Ok(1));
    }
  }

  /** Once a pass has raised, later keys change nothing: the loop has been left. */
  lemma ForEachErrStable(a: Action, token: string, s: Snapshot, u: Snapshot)
    requires ForEach(a, token, s).outcome.Err?
    ensures ForEach(a, token, s + u) == ForEach(a, token, s)
  {
    ResolveAppend(token, s, u);
    AppliedAppend(a, Resolve(token, s).items, Resolve(token, u).items);
  }

  /** The loop step of `_for_each_machine` over a key snapshot, at key `i`. */
  lemma ForEachStep(a: Action, token: string, keys: Snapshot, i: nat, done: seq<Event>, found: nat)
    requires i < |keys|
    requires ForEach(a, token, keys[..i]) == Pass(done, Ok(found))
    ensures var v := Visit(a, token, keys[i], found);
            ForEach(a, token, keys[..i + 1]) == Pass(done + v.events, v.outcome)
    ensures var v := Visit(a, token, keys[i], found);
            v.outcome.Err? ==> ForEach(a, token, keys) == Pass(done + v.events, v.outcome)
  {
    ForEachSnoc(a, token, keys[..i], keys[i]);
    assert keys[..i + 1] == keys[..i] + [keys[i]];
    if Visit(a, token, keys[i], found).outcome.Err? {
      ForEachErrStable(a, token, keys[..i + 1], keys[i + 1..]);
      assert keys[..i + 1] + keys[i + 1..] == keys;
    }
  }

  /** The walk breaks off exactly when some key is `None`. */
  lemma {:induction false} ResolveBroken(token: string, snap: Snapshot)
    ensures Resolve(token, snap).broken <==> HasNoneKey(snap)
  {
    if snap != [] {
      ResolveBroken(token, snap[1..]);
      if snap[0].spec.Some? {
        if HasNoneKey(snap) {
          var i :| 0 <= i < |snap| && snap[i].spec.None?;
          assert snap[1..][i - 1].spec.None?;
        }
        if HasNoneKey(snap[1..]) {
          var i :| 0 <= i < |snap[1..]| && snap[1..][i].spec.None?;
          assert snap[i + 1].spec.None?;
        }
      } else {
        assert snap[0].spec.None?;
      }
    }
  }

  lemma MatchingSnoc(token: string, s: Snapshot, e: Entry)
    ensures MatchingIndices(token, s + [e]) ==
      MatchingIndices(token, s) + (if e.spec.Some? && Named(e.spec.value, token) then {|s|} else {})
    ensures |s| !in MatchingIndices(token, s)
  {
    var t := s + [e];
    assert forall i :: 0 <= i < |s| ==> t[i] == s[i];
  }

  /** Without a `None` key, one item is yielded per spec the token names. */
  lemma {:induction false} ResolveCount(token: string, snap: Snapshot)
    requires !HasNoneKey(snap)
    ensures |Resolve(token, snap).items| == |MatchingIndices(token, snap)|
    decreases |snap|
  {
    if snap != [] {
      var s := snap[..|snap| - 1];
      var e := snap[|snap| - 1];
      assert snap == s + [e];
      assert !HasNoneKey(s) by {
        assert forall i :: 0 <= i < |s| ==> s[i] == snap[i];
      }
      ResolveCount(token, s);
      ResolveBroken(token, s);
      ResolveAppend(token, s, [e]);
      assert [e][1..] == [];
      MatchingSnoc(token, s, e);
    }
  }

  /** The positions the token names, in increasing order. */
  function MatchOrder(token: string, snap: Snapshot): (r: seq<int>)
    ensures forall j :: 0 <= j < |r| ==> 0 <= r[j] < |snap|
  {
    if snap == [] then []
    else
      var e := snap[|snap| - 1];
      MatchOrder(token, snap[..|snap| - 1]) + if e.spec.Some? && Named(e.spec.value, token) then [|snap| - 1] else []
  }

  /**
   * Without a `None` key, the generator yields the machine of every key the
   * token names, each once, in key order, and nothing else.
   */
  lemma {:induction false} ResolveInOrder(token: string, snap: Snapshot)
    requires !HasNoneKey(snap)
    ensures var y := Resolve(token, snap);
            var o := MatchOrder(token, snap);
      |y.items| == |o| &&
      (forall j, k :: 0 <= j < k < |o| ==> o[j] < o[k]) &&
      (forall i :: i in o <==> i in MatchingIndices(token, snap)) &&
      forall j :: 0 <= j < |o| ==> y.items[j] == snap[o[j]].machine
    decreases |snap|
  {
    if snap != [] {
      var s := snap[..|snap| - 1];
      var e := snap[|snap| - 1];
      assert snap == s + [e];
      assert forall i :: 0 <= i < |s| ==> s[i] == snap[i];
      ResolveInOrder(token, s);
      ResolveBroken(token, s);
      ResolveAppend(token, s, [e]);
      assert [e][1..] == [];
      MatchingSnoc(token, s, e);
    }
  }

  /** `_for_each_machine` returns 0 exactly when no spec carries the token's name. */
  lemma ForEachZeroIff(a: Action, token: string, snap: Snapshot)
    ensures ForEach(a, token, snap).outcome == Ok(0)
        <==> !HasNoneKey(snap) && MatchingIndices(token, snap) == {}
  {
    ResolveBroken(token, snap);
    if !HasNoneKey(snap) {
      ResolveCount(token, snap);
      var y := Resolve(token, snap);
      if y.items != [] {
        match y.items[0] {
          case None =>
          case Some(m) =>
        }
      }
    }
  }

  /** A pass that ends normally has called the action once per matching spec. */
  lemma ForEachCount(a: Action, token: string, snap: Snapshot)
    requires ForEach(a, token, snap).outcome.Ok?
    ensures ForEach(a, token, snap).outcome.value == |MatchingIndices(token, snap)|
    ensures forall j :: 0 <= j < |Resolve(token, snap).items| ==> Resolve(token, snap).items[j].Some?
  {
    ResolveBroken(token, snap);
    ResolveCount(token, snap);
    AppliedAllLive(a, Resolve(token, snap).items);
  }

  lemma {:induction false} AppliedAllLive(a: Action, items: seq<Option<Machine>>)
    requires Applied(a, items).outcome.Ok?
    ensures forall j :: 0 <= j < |items| ==> items[j].Some?
  {
    if items != [] {
      AppliedAllLive(a, items[1..]);
      assert forall j :: 1 <= j < |items| ==> items[j] == items[1..][j - 1];
    }
  }

  lemma SliceAfter(e: seq<Event>, r: seq<Event>, k: nat, l: nat)
    requires k <= l <= |r|
    ensures (e + r)[|e| + k .. |e| + l] == r[k..l]
  {
  }

  /** A pass of `pause` that ends normally has five effects per machine. */
  lemma {:induction false} PauseLength(time: Seconds, items: seq<Option<Machine>>)
    requires Applied(PauseAction(time), items).outcome.Ok?
    ensures |Applied(PauseAction(time), items).events| == 5 * |items|
  {
    if items != [] {
      PauseLength(time, items[1..]);
    }
  }

  /** The j-th machine's five effects fill events 5j to 5j+4. */
  lemma {:induction false} PauseBlock(time: Seconds, items: seq<Option<Machine>>, j: nat)
    requires Applied(PauseAction(time), items).outcome.Ok?
    requires j < |items|
    ensures |Applied(PauseAction(time), items).events| == 5 * |items|
    ensures items[j].Some?
    ensures Applied(PauseAction(time), items).events[5 * j .. 5 * j + 5] == Effects(PauseAction(time), items[j].value)
  {
    var p := Applied(PauseAction(time), items);
    var rest := Applied(PauseAction(time), items[1..]);
    var e0 := Effects(PauseAction(time), items[0].value);
    assert p.events == e0 + rest.events;
    PauseLength(time, items);
    PauseLength(time, items[1..]);
    if j == 0 {
      assert p.events[0..5] == e0;
    } else {
      PauseBlock(time, items[1..], j - 1);
      assert items[j] == items[1..][j - 1];
      var k := 5 * (j - 1);
      assert 5 * j == |e0| + k;
      SliceAfter(e0, rest.events, k, k + 5);
    }
  }

  /**
   * `pause` over the items a resolution yielded: the j-th machine's five
   * effects fill events 5j to 5j+4; one machine's effects never interleave
   * with another's.
   */
  lemma PauseInBlocks(time: Seconds, items: seq<Option<Machine>>)
    requires Applied(PauseAction(time), items).outcome.Ok?
    ensures |Applied(PauseAction(time), items).events| == 5 * |items|
    ensures forall j :: 0 <= j < |items| ==>
      items[j].Some? &&
      Applied(PauseAction(time), items).events[5 * j .. 5 * j + 5] == Effects(PauseAction(time), items[j].value)
  {
    PauseLength(time, items);
    forall j | 0 <= j < |items|
      ensures items[j].Some? &&
        Applied(PauseAction(time), items).events[5 * j .. 5 * j + 5] == Effects(PauseAction(time), items[j].value)
    {
      PauseBlock(time, items, j);
    }
  }

  /**
   * A whole pass of `pause` that ends normally: for the j-th machine picked,
   * in snapshot order, events 5j to 5j+4 are the echo, the container's pause,
   * the sleep, the unpause and the zero-timeout ping.
   */
  lemma PauseOrder(time: Seconds, token: string, snap: Snapshot)
    requires ForEach(PauseAction(time), token, snap).outcome.Ok?
    ensures var p := ForEach(PauseAction(time), token, snap);
            var items := Resolve(token, snap).items;
      |p.events| == 5 * |items| && |items| == |MatchingIndices(token, snap)| &&
      forall j :: 0 <= j < |items| ==>
        items[j].Some? &&
        var m := items[j].value;
        p.events[5 * j .. 5 * j + 5] ==
          [Stdout(PausingMessage(m, time)), PauseContainer(m), Sleep(time), UnpauseContainer(m), PingMachine(m, 0)]
  {
    ResolveBroken(token, snap);
    ResolveCount(token, snap);
    PauseInBlocks(time, Resolve(token, snap).items);
  }
}
