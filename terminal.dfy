/**
 * The in-game terminal (the `keydown` handler of main.js): the trimmed input
 * selects one command; `run`, `stop`, `list programs` and
 * `compute prestige` act on the store and the executor, the others only
 * print. What the handler appends to the terminal is a `Reply` value here.
 */
module Terminal {
  import opened Wrappers
  import opened Text
  import opened RealMath
  import opened OrderedMaps
  import opened GameState
  import opened ProgramDefinitions
  import opened ProgramSchemas
  import opened ProgramExecutor
  import UiRenderer

  datatype Command =
    | Exit
    | Clear
    | Status
    | Run(key: string)
    | Stop(key: string)
    | ListPrograms
    | Help
    | ComputePrestige
    | Unknown(text: string)

  /** What one command prints, or `StopFault` when the handler throws before printing. */
  datatype Reply =
    | Closed
    | Cleared
    | RunningStatus(programs: seq<RunningProgram>)
    | Launched(name: string)
    | Refused(error: RunError)
    | NotFound(key: string)
    | Stopped(name: string)
    | StopFault
    | NotRunning(key: string)
    | ProgramList(ids: seq<string>)
    | HelpText
    | PrestigeComputed(cost: int)
    | ShortOfCycles(cost: int)
    | UnknownCommand(text: string)

  /**
   * The replies after which the handler has asked for a tier update: a
   * started program (`runProgram`) and a computed prestige.
   */
  predicate Redraws(reply: Reply) {
    reply.Launched? || reply.PrestigeComputed?
  }

  /** The handler reads `terminalInput.value.trim()`. */
  function Parse(input: string): Command {
    Classify(Trim(input))
  }

  /**
   * The handler's chain of tests on the trimmed input: exact words, except
   * `run ` and `stop `, which are prefixes whose rest, trimmed, is the key.
   */
  function Classify(c: string): Command {
    if c == "exit" || c == "close" then Exit
    else if c == "clear" then Clear
    else if c == "status" then Status
    else if StartsWith(c, "run ") then Run(Trim(c[4..]))
    else if StartsWith(c, "stop ") then Stop(Trim(c[5..]))
    else if c == "list programs" then ListPrograms
    else if c == "help" then Help
    else if c == "compute prestige" then ComputePrestige
    else Unknown(c)
  }

  /** No white space at either end: what `trim()` leaves. */
  predicate Trimmed(s: string) {
    s == [] || (!IsWhitespace(s[0]) && !IsWhitespace(s[|s| - 1]))
  }

  /** Trimming a string with no white space at either end gives it back. */
  lemma TrimKeeps(s: string)
    requires Trimmed(s)
    ensures Trim(s) == s
  {
    assert TrimStart(s) == s;
  }

  /** `trim()` is idempotent, so the handler sees the same command however the input was padded. */
  lemma ParseIgnoresPadding(input: string)
    ensures Trim(Trim(input)) == Trim(input)
    ensures Parse(Trim(input)) == Parse(input)
  {
    TrimKeeps(Trim(input));
  }

  /** Input with no white space at either end is classified as it stands. */
  lemma ParseTrimmed(s: string)
    requires Trimmed(s)
    ensures Parse(s) == Classify(s)
  {
    TrimKeeps(s);
  }

  /** Each command word `help` lists is recognised as that command. */
  lemma ClassifyWords()
    ensures Classify("exit") == Exit && Classify("close") == Exit
    ensures Classify("clear") == Clear && Classify("status") == Status
    ensures Classify("list programs") == ListPrograms && Classify("help") == Help
    ensures Classify("compute prestige") == ComputePrestige
  {
    NotPrefixed("list programs");
    NotPrefixed("help");
    NotPrefixed("compute prestige");
  }

  /** `run <key>`, with a non-empty trimmed key, runs that key; likewise `stop <key>`. */
  lemma ParseRun(k: string)
    requires k != [] && Trimmed(k)
    ensures Parse("run " + k) == Run(k)
  {
    PrefixedTrimmed("run ", k);
    TrimKeeps("run " + k);
    ClassifyRun(k);
  }

  lemma ParseStop(k: string)
    requires k != [] && Trimmed(k)
    ensures Parse("stop " + k) == Stop(k)
  {
    PrefixedTrimmed("stop ", k);
    TrimKeeps("stop " + k);
    ClassifyStop(k);
  }

  /** A word followed by a trimmed, non-empty key has no white space at either end. */
  lemma PrefixedTrimmed(w: string, k: string)
    requires w != [] && !IsWhitespace(w[0]) && k != [] && Trimmed(k)
    ensures Trimmed(w + k)
  {
    var s := w + k;
    assert s[0] == w[0] && s[|s| - 1] == k[|k| - 1];
  }

  lemma ClassifyRun(k: string)
    requires k != [] && Trimmed(k)
    ensures Classify("run " + k) == Run(k)
  {
    var s := "run " + k;
    assert s[..4] == "run " && s[4..] == k;
    TrimKeeps(k);
    ClassifyRunPrefix(s);
  }

  /** Input starting `run ` is a `run` command. */
  lemma ClassifyRunPrefix(s: string)
    requires StartsWith(s, "run ")
    ensures Classify(s) == Run(Trim(s[4..]))
  {
    assert s[0] == s[..4][0] == 'r';
    assert s[0] != "exit"[0] && s[0] != "close"[0] && s[0] != "clear"[0] && s[0] != "status"[0];
  }

  lemma ClassifyStop(k: string)
    requires k != [] && Trimmed(k)
    ensures Classify("stop " + k) == Stop(k)
  {
    var s := "stop " + k;
    assert s[..5] == "stop " && s[5..] == k;
    TrimKeeps(k);
    ClassifyStopPrefix(s);
  }

  /** Input starting `stop ` is a `stop` command. */
  lemma ClassifyStopPrefix(s: string)
    requires StartsWith(s, "stop ")
    ensures Classify(s) == Stop(Trim(s[5..]))
  {
    assert s[0] == s[..5][0] == 's' && s[2] == s[..5][2] == 'o';
    StopNoEarlierWord(s);
  }

  /** A string whose first letter is `s` and third is `o` is none of the words the handler compares before `stop `. */
  lemma StopNoEarlierWord(s: string)
    requires |s| > 2 && s[0] == 's' && s[2] == 'o'
    ensures !StartsWith(s, "run ") && s != "exit" && s != "close" && s != "clear" && s != "status"
  {
    if |s| >= 4 {
      assert s[..4][0] == s[0];
    }
    assert s[0] != "exit"[0] && s[0] != "close"[0] && s[0] != "clear"[0] && s[2] != "status"[2];
  }

  /** A word that starts with neither `run ` nor `stop `. */
  lemma NotPrefixed(s: string)
    requires |s| > 2 && s[0] != 'r' && (s[0] != 's' || s[2] != 'o')
    ensures !StartsWith(s, "run ") && !StartsWith(s, "stop ")
  {
    if |s| >= 5 {
      assert s[..5][2] == s[2];
    }
    if |s| >= 4 {
      assert s[..4][0] == s[0];
    }
  }

  // ---------------------------------------------------------- list programs

  /** `set.add(id)` for each id in turn: a new id goes to the end. */
  function AddAll(acc: seq<string>, ids: seq<string>): seq<string>
    decreases |ids|
  {
    if ids == [] then acc
    else AddAll(if ids[0] in acc then acc else acc + [ids[0]], ids[1..])
  }

  /** The `programSchemas.forEach` loop: each group the currency reaches adds its programs. */
  function CollectUnlocked(acc: seq<string>, schemas: seq<ProgramSchema>, prestige: real): seq<string>
    decreases |schemas|
  {
    if schemas == [] then acc
    else CollectUnlocked(if prestige >= schemas[0].unlockThreshold then AddAll(acc, schemas[0].programs) else acc,
                         schemas[1..], prestige)
  }

  /** The ids `list programs` prints, in order, for a prestige currency of `prestige || 0`. */
  function Listed(prestige: real): seq<string> {
    CollectUnlocked([], Schemas(), Or(prestige, 0.0))
  }

  lemma {:induction false} AddAllMembers(acc: seq<string>, ids: seq<string>)
    requires Distinct(acc)
    decreases |ids|
    ensures Distinct(AddAll(acc, ids))
    ensures forall k :: k in AddAll(acc, ids) <==> k in acc || k in ids
  {
    if ids != [] {
      var next := if ids[0] in acc then acc else acc + [ids[0]];
      assert forall k :: k in next <==> k in acc || k == ids[0];
      AddAllMembers(next, ids[1..]);
      assert forall k :: k in ids <==> k == ids[0] || k in ids[1..];
    }
  }

  lemma {:induction false} CollectMembers(acc: seq<string>, schemas: seq<ProgramSchema>, prestige: real)
    requires Distinct(acc)
    decreases |schemas|
    ensures Distinct(CollectUnlocked(acc, schemas, prestige))
    ensures forall k :: k in CollectUnlocked(acc, schemas, prestige) <==> k in acc || UnlockedIn(schemas, prestige, k)
  {
    if schemas != [] {
      var next := if prestige >= schemas[0].unlockThreshold then AddAll(acc, schemas[0].programs) else acc;
      if prestige >= schemas[0].unlockThreshold {
        AddAllMembers(acc, schemas[0].programs);
      }
      CollectMembers(next, schemas[1..], prestige);
    }
  }

  /**
   * `list programs` prints each program once, and exactly the programs
   * `runProgram`'s unlock check accepts.
   */
  lemma ListedIffUnlocked(prestige: real, k: string)
    ensures Distinct(Listed(prestige))
    ensures k in Listed(prestige) <==> IsProgramUnlocked(prestige, k)
  {
    CollectMembers([], Schemas(), Or(prestige, 0.0));
  }

  // ------------------------------------------------------- compute prestige

  /** `b ** n` for any integer exponent. */
  function Power(b: real, n: int): real
    requires b >= 1.0
  {
    if n >= 0 then Pow(b, n) else PowAtLeastOne(b, -n); 1.0 / Pow(b, -n)
  }

  /** `Math.floor(300 * Math.pow(1.5, n))`. */
  function PrestigeCost(n: int): int {
    (300.0 * Power(1.5, n)).Floor
  }

  /**
   * The `compute prestige` branch on `meta`: `None` when `prestigeCurrency
   * || 0` is below the cost; otherwise the cost is spent, the count rises
   * and each of the four stats rises by one from its `||` default.
   */
  function ComputedPrestige(m: Meta): Option<Meta> {
    var n := m.computingPrestigeCount;
    var cost := PrestigeCost(n);
    if Or(m.prestigeCurrency, 0.0) < cost as real then None
    else Some(m.(prestigeCurrency := m.prestigeCurrency - cost as real,
                 computingPrestigeCount := n + 1,
                 processingPower := Or(m.processingPower, 0.0) + 1.0,
                 speed := Or(m.speed, 1.0) + 1.0,
                 memory := Or(m.memory, 0.0) + 1.0,
                 storageSlots := Or(m.storageSlots, 1.0) + 1.0))
  }

  /** The first costs are 300, 450 and 675, and from a count of 0 on each costs at least as much as the one before. */
  lemma PrestigeCostGrows(n: int)
    requires n >= 0
    ensures PrestigeCost(0) == 300 && PrestigeCost(1) == 450 && PrestigeCost(2) == 675
    ensures 300 <= PrestigeCost(n) <= PrestigeCost(n + 1)
  {
    assert Pow(1.5, 1) == 1.5 by { assert Pow(1.5, 0) == 1.0; }
    assert Pow(1.5, 2) == 2.25;
    PowAtLeastOne(1.5, n);
    assert Pow(1.5, n + 1) == 1.5 * Pow(1.5, n);
    assert 300.0 * Power(1.5, n) <= 300.0 * Power(1.5, n + 1);
  }

  /**
   * Compute prestige is refused exactly when the currency is short of the
   * cost; when it goes through, it spends exactly the cost, leaves a
   * non-negative currency non-negative, counts one more prestige and adds
   * one to each stat, and nothing else in `meta` changes (the rig totals
   * are not refreshed).
   */
  lemma ComputePrestigeSpends(m: Meta)
    ensures ComputedPrestige(m).None? <==> Or(m.prestigeCurrency, 0.0) < PrestigeCost(m.computingPrestigeCount) as real
    ensures ComputedPrestige(m).Some? ==>
      var r, cost := ComputedPrestige(m).value, PrestigeCost(m.computingPrestigeCount) as real;
      && r.prestigeCurrency == m.prestigeCurrency - cost
      && (m.prestigeCurrency >= 0.0 ==> r.prestigeCurrency >= 0.0)
      && r.computingPrestigeCount == m.computingPrestigeCount + 1
      && r.processingPower == Or(m.processingPower, 0.0) + 1.0
      && r.speed == Or(m.speed, 1.0) + 1.0
      && r.memory == Or(m.memory, 0.0) + 1.0
      && r.storageSlots == Or(m.storageSlots, 1.0) + 1.0
      && r.(prestigeCurrency := m.prestigeCurrency, computingPrestigeCount := m.computingPrestigeCount,
            processingPower := m.processingPower, speed := m.speed, memory := m.memory,
            storageSlots := m.storageSlots) == m
  {
  }

  /**
   * The program limit `processingPower || 1` rises by one with each compute
   * prestige, except the first from a power of 0, which leaves it at 1.
   */
  lemma ComputePrestigeCapacity(s: State)
    requires ComputedPrestige(s.meta).Some? && s.meta.processingPower >= 0.0
    ensures var r := s.(meta := ComputedPrestige(s.meta).value);
      Capacity(r) == if s.meta.processingPower == 0.0 then Capacity(s) else Capacity(s) + 1.0
  {
  }

  // ------------------------------------------------------------------ stop

  /** `running.find(p => p.key === key)`. */
  function FindRunning(ps: seq<RunningProgram>, key: string): (r: Option<RunningProgram>)
    ensures r.Some? <==> exists i :: 0 <= i < |ps| && ps[i].key == key
    ensures r.Some? ==> r.value in ps && r.value.key == key
  {
    if ps == [] then None
    else if ps[0].key == key then Some(ps[0])
    else
      var r := FindRunning(ps[1..], key);
      assert forall i :: 1 <= i < |ps| ==> ps[i] == ps[1..][i - 1];
      r
  }

  /** Each running entry is stored under its own program key, as `runProgram` stores it. */
  ghost predicate Keyed(r: OMap<RunningProgram>) {
    forall k :: k in r.values ==> r.values[k].key == k
  }

  /** Starting a program keeps the entries keyed by their own keys. */
  lemma StartKeepsKeyed(w: World, p: Program)
    requires Keyed(w.running) && Started(w, p).Success?
    ensures Keyed(Started(w, p).value.running)
  {
  }

  /** With keyed entries, the list lookup finds a key exactly when it is running. */
  lemma FindRunningIff(r: OMap<RunningProgram>, key: string)
    requires r.Valid() && Keyed(r)
    ensures FindRunning(RunningList(r), key).Some? <==> key in r.values
  {
    var ps := RunningList(r);
    if key in r.values {
      assert r.values[key] in ps;
      var i :| 0 <= i < |ps| && ps[i] == r.values[key];
      assert ps[i].key == key;
    }
  }

  /**
   * `stop <key>` as written: main.js never imports `cancelProgram`, so a
   * running key makes the call throw a `ReferenceError`: nothing is
   * cancelled and nothing is printed.
   */
  function StopAsWritten(w: World, key: string): (World, Reply)
    requires w.running.Valid()
  {
    match FindRunning(RunningList(w.running), key)
    case None => (w, NotRunning(key))
    case Some(_) => (w, StopFault)
  }

  /** `stop <key>` as intended: the program is cancelled, with its collateral refunded. */
  function StopProgram(w: World, key: string): (World, Reply)
    requires w.running.Valid()
  {
    match FindRunning(RunningList(w.running), key)
    case None => (w, NotRunning(key))
    case Some(p) => (Cancelled(w, key), Stopped(p.name))
  }

  /** As written, stopping a running program leaves it running with its collateral still locked. */
  lemma StopAsWrittenKeepsRunning(w: World, key: string)
    requires w.running.Valid() && Keyed(w.running) && key in w.running.values
    ensures StopAsWritten(w, key) == (w, StopFault)
    ensures key in StopAsWritten(w, key).0.running.values
  {
    FindRunningIff(w.running, key);
  }

  /**
   * As intended, stopping a running program removes it and refunds what it
   * locked; stopping a key that is not running changes nothing.
   */
  lemma StopCancels(w: World, key: string)
    requires w.running.Valid() && Keyed(w.running)
    ensures key !in w.running.values ==> StopProgram(w, key) == (w, NotRunning(key))
    ensures key in w.running.values ==>
      var r := StopProgram(w, key).0;
      && key !in r.running.values
      && r.running.Valid() && Keyed(r.running)
      && (forall t :: r.state.resources.Get(t) == w.state.resources.Get(t) + AmountOf(w.running.values[key].locked, t))
      && StopProgram(w, key).1 == Stopped(w.running.values[key].name)
  {
    FindRunningIff(w.running, key);
    CancelRefunds(w, key);
  }

  // --------------------------------------------------------------- dispatch

  /**
   * One command on the store and the executor, as main.js handles it: a
   * `stop` of a running key throws (`StopAsWritten`).
   */
  function Handle(w: World, c: Command): (World, Reply)
    requires w.running.Valid()
  {
    match c
    case Exit => (w, Closed)
    case Clear => (w, Cleared)
    case Status => (w, RunningStatus(RunningList(w.running)))
    case Run(k) =>
      if k !in Definitions() then (w, NotFound(k))
      else
        var p := Definitions()[k];
        var r := Started(w, p);
        if r.Success? then (r.value, Launched(p.name)) else (w, Refused(r.error))
    case Stop(k) => StopAsWritten(w, k)
    case ListPrograms => (w, ProgramList(Listed(w.state.meta.prestigeCurrency)))
    case Help => (w, HelpText)
    case ComputePrestige =>
      var cost := PrestigeCost(w.state.meta.computingPrestigeCount);
      var m := ComputedPrestige(w.state.meta);
      if m.None? then (w, ShortOfCycles(cost)) else (w.(state := w.state.(meta := m.value)), PrestigeComputed(cost))
    case Unknown(t) => (w, UnknownCommand(t))
  }

  /**
   * Only `run` and `compute prestige` change anything, and a refused one
   * changes nothing; `stop` never does, since its cancel call throws.
   */
  lemma OnlyActionsChange(w: World, c: Command)
    requires w.running.Valid()
    ensures !(c.Run? || c.ComputePrestige?) ==> Handle(w, c).0 == w
    ensures (Handle(w, c).1.Refused? || Handle(w, c).1.ShortOfCycles? || Handle(w, c).1.NotFound?
             || Handle(w, c).1.NotRunning? || Handle(w, c).1.StopFault?) ==> Handle(w, c).0 == w
  {
  }

  /** The handler on the live store and executor, for the typed input. */
  method HandleInput(g: Game, x: Executor, ui: UiRenderer.Renderer, input: string) returns (reply: Reply)
    requires x.running.Valid()
    modifies g, x, ui
    ensures x.running.Valid()
    ensures ui.pending == (old(ui.pending) || Redraws(reply))
    ensures (World(g.Snapshot(), x.running), reply) == Handle(old(World(g.Snapshot(), x.running)), Parse(input))
  {
    reply := Dispatch(g, x, ui, Parse(input));
  }

  /** The branch for one recognised command. */
  method Dispatch(g: Game, x: Executor, ui: UiRenderer.Renderer, c: Command) returns (reply: Reply)
    requires x.running.Valid()
    modifies g, x, ui
    ensures x.running.Valid()
    ensures ui.pending == (old(ui.pending) || Redraws(reply))
    ensures (World(g.Snapshot(), x.running), reply) == Handle(old(World(g.Snapshot(), x.running)), c)
  {
    match c
    case Exit => reply := Closed;
    case Clear => reply := Cleared;
    case Status =>
      var ps := GetRunningPrograms(x);
      reply := RunningStatus(ps);
    case Run(k) => reply := RunCommand(g, x, ui, k);
    case Stop(k) => reply := StopCommand(g, x, k);
    case ListPrograms =>
      var ids := UnlockedPrograms(g.meta.prestigeCurrency);
      reply := ProgramList(ids);
    case Help => reply := HelpText;
    case ComputePrestige => reply := DoComputePrestige(g, ui);
    case Unknown(t) => reply := UnknownCommand(t);
  }

  /** The `run ` branch, calling the executor's `runProgram` on a defined key. */
  method RunCommand(g: Game, x: Executor, ui: UiRenderer.Renderer, key: string) returns (reply: Reply)
    requires x.running.Valid()
    modifies g, x, ui
    ensures x.running.Valid()
    ensures ui.pending == (old(ui.pending) || Redraws(reply))
    ensures (World(g.Snapshot(), x.running), reply) == Handle(old(World(g.Snapshot(), x.running)), Run(key))
  {
    if key !in Definitions() {
      return NotFound(key);
    }
    var p := Definitions()[key];
    var r := Started(World(g.Snapshot(), x.running), p);
    var started := RunProgram(g, x, ui, p);
    reply := if started then Launched(p.name) else Refused(r.error);
  }

  /**
   * The `stop ` branch: the lookup runs, and for a running key the call to
   * the unimported `cancelProgram` throws before anything changes.
   */
  method StopCommand(g: Game, x: Executor, key: string) returns (reply: Reply)
    requires x.running.Valid()
    ensures (World(g.Snapshot(), x.running), reply) == StopAsWritten(World(g.Snapshot(), x.running), key)
  {
    var running := GetRunningPrograms(x);
    var prog := FindRunning(running, key);
    if prog.None? {
      return NotRunning(key);
    }
    reply := StopFault;
  }

  /** The `list programs` loops, collecting ids in a `Set` in insertion order. */
  method UnlockedPrograms(prestige: real) returns (ids: seq<string>)
    ensures ids == Listed(prestige)
  {
    var schemas := Schemas();
    var p := Or(prestige, 0.0);
    ids := [];
    var i := 0;
    while i < |schemas|
      invariant 0 <= i <= |schemas|
      invariant CollectUnlocked(ids, schemas[i..], p) == Listed(prestige)
    {
      assert schemas[i..][1..] == schemas[i + 1..];
      if p >= schemas[i].unlockThreshold {
        var programs := schemas[i].programs;
        ghost var start := ids;
        var j := 0;
        while j < |programs|
          invariant 0 <= j <= |programs|
          invariant AddAll(ids, programs[j..]) == AddAll(start, programs)
        {
          assert programs[j..][1..] == programs[j + 1..];
          if programs[j] !in ids {
            ids := ids + [programs[j]];
          }
          j := j + 1;
        }
      }
      i := i + 1;
    }
  }

  /** The `compute prestige` branch on the live store. */
  method DoComputePrestige(g: Game, ui: UiRenderer.Renderer) returns (reply: Reply)
    modifies g, ui
    ensures ui.pending == (old(ui.pending) || Redraws(reply))
    ensures var m := ComputedPrestige(old(g.meta));
      && reply == (if m.None? then ShortOfCycles(PrestigeCost(old(g.meta).computingPrestigeCount))
                   else PrestigeComputed(PrestigeCost(old(g.meta).computingPrestigeCount)))
      && g.Snapshot() == old(g.Snapshot()).(meta := m.GetOr(old(g.meta)))
  {
    var times := g.meta.computingPrestigeCount;
    var cost := PrestigeCost(times);
    if Or(g.meta.prestigeCurrency, 0.0) < cost as real {
      return ShortOfCycles(cost);
    }
    g.meta := g.meta.(prestigeCurrency := g.meta.prestigeCurrency - cost as real);
    g.meta := g.meta.(computingPrestigeCount := times + 1);
    g.meta := g.meta.(processingPower := Or(g.meta.processingPower, 0.0) + 1.0);
    g.meta := g.meta.(speed := Or(g.meta.speed, 1.0) + 1.0);
    g.meta := g.meta.(memory := Or(g.meta.memory, 0.0) + 1.0);
    g.meta := g.meta.(storageSlots := Or(g.meta.storageSlots, 1.0) + 1.0);
    ui.RequestTierUpdate();
    reply := PrestigeComputed(cost);
  }
}
