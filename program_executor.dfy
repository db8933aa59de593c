/**
 * The program executor (scripts/data/programs/programExecutor.js): the
 * module-level `runningPrograms` map, starting a program against the
 * capacity, unlock, cycle and collateral checks, the per-tick countdown, and
 * cancellation with a refund of the locked collateral. `World` pairs the
 * store with the map; each operation is a function on `World` and a method
 * on the live `Game` and `Executor`.
 */
module ProgramExecutor {
  import opened Wrappers
  import opened Utils
  import opened RealMath
  import opened OrderedMaps
  import opened GameState
  import opened ProgramTemplates
  import opened ProgramDefinitions
  import opened ProgramSchemas
  import UiRenderer

  /** A `runningPrograms` entry. */
  datatype RunningProgram = RunningProgram(
    key: string,
    name: string,
    /** `null` for a permanent program; ticks left otherwise. */
    timeRemaining: Option<int>,
    totalDuration: Option<int>,
    effect: ProgramEffect,
    /** The collateral taken from the balances when the program started. */
    locked: seq<Requirement>,
    permanent: bool)

  /** The store together with the executor's map of running programs. */
  datatype World = World(state: State, running: OMap<RunningProgram>)

  /** Why `runProgram` refused (the text of its alert). */
  datatype RunError = AtCapacity(limit: real) | NotUnlocked | NotEnoughCycles | NotEnoughData(resource: Tier)

  // ---------------------------------------------------------------- unlock

  /** `schemas.some(schema => prestige >= schema.unlockThreshold && schema.programs.includes(key))`. */
  predicate UnlockedIn(schemas: seq<ProgramSchema>, prestige: real, key: string)
    decreases |schemas|
  {
    && |schemas| > 0
    && ((prestige >= schemas[0].unlockThreshold && key in schemas[0].programs)
        || UnlockedIn(schemas[1..], prestige, key))
  }

  /** `isProgramUnlocked(key)`, reading a prestige currency of `prestigeCurrency || 0`. */
  predicate IsProgramUnlocked(prestigeCurrency: real, key: string) {
    UnlockedIn(Schemas(), Or(prestigeCurrency, 0.0), key)
  }

  /** A program is unlocked exactly when some schema it is listed in has a threshold the currency reaches. */
  lemma {:induction false} UnlockedInSome(schemas: seq<ProgramSchema>, prestige: real, key: string)
    decreases |schemas|
    ensures UnlockedIn(schemas, prestige, key) <==>
      exists i :: 0 <= i < |schemas| && prestige >= schemas[i].unlockThreshold && key in schemas[i].programs
  {
    if |schemas| > 0 {
      UnlockedInSome(schemas[1..], prestige, key);
      if UnlockedIn(schemas[1..], prestige, key) {
        var i :| 0 <= i < |schemas[1..]| && prestige >= schemas[1..][i].unlockThreshold && key in schemas[1..][i].programs;
        assert schemas[i + 1] == schemas[1..][i];
      }
      forall i | 1 <= i < |schemas| && prestige >= schemas[i].unlockThreshold && key in schemas[i].programs
        ensures UnlockedIn(schemas[1..], prestige, key)
      {
        assert schemas[1..][i - 1] == schemas[i];
      }
    }
  }

  /** Unlocking is monotone: more prestige currency never locks a program again. */
  lemma {:induction false} UnlockMonotone(schemas: seq<ProgramSchema>, p1: real, p2: real, key: string)
    requires p1 <= p2 && UnlockedIn(schemas, p1, key)
    decreases |schemas|
    ensures UnlockedIn(schemas, p2, key)
  {
    if !(p1 >= schemas[0].unlockThreshold && key in schemas[0].programs) {
      UnlockMonotone(schemas[1..], p1, p2, key);
    }
  }

  /**
   * With the two shipped groups, a catalog program is unlocked exactly when
   * the currency reaches 100 (the bootloader group) or 150 (the dev kit).
   */
  lemma UnlockThresholds(prestige: real, i: int)
    requires 0 <= i < |ProgramKeys|
    ensures IsProgramUnlocked(prestige, ProgramKeys[i]) <==>
      prestige >= (if ProgramKeys[i] in Schemas()[0].programs then 100.0 else 150.0)
  {
    var k := ProgramKeys[i];
    assert Or(prestige, 0.0) == prestige;
    UnlockedInSome(Schemas(), prestige, k);
    EachProgramInOneGroup(i);
    if k in Schemas()[0].programs {
      assert k !in Schemas()[1].programs;
    } else {
      assert k in Schemas()[1].programs;
    }
  }

  // ------------------------------------------------------------- collateral

  /** The first required resource whose balance `resources[r] || 0` is short of its amount. */
  function FirstShortfall(l: Ledger, reqs: seq<Requirement>): Option<Tier>
    decreases |reqs|
  {
    if reqs == [] then None
    else if Or(l.Get(reqs[0].resource), 0.0) < reqs[0].amount then Some(reqs[0].resource)
    else FirstShortfall(l, reqs[1..])
  }

  /** There is no shortfall exactly when every balance covers its amount. */
  lemma {:induction false} NoShortfall(l: Ledger, reqs: seq<Requirement>)
    decreases |reqs|
    ensures FirstShortfall(l, reqs).None? <==> forall j :: 0 <= j < |reqs| ==> l.Get(reqs[j].resource) >= reqs[j].amount
  {
    if reqs != [] {
      NoShortfall(l, reqs[1..]);
      assert forall j :: 1 <= j < |reqs| ==> reqs[j] == reqs[1..][j - 1];
    }
  }

  /** A reported shortfall is a required resource whose balance is below its amount. */
  lemma {:induction false} ShortfallIsShort(l: Ledger, reqs: seq<Requirement>)
    requires FirstShortfall(l, reqs).Some?
    decreases |reqs|
    ensures exists j :: 0 <= j < |reqs| && reqs[j].resource == FirstShortfall(l, reqs).value
                        && l.Get(reqs[j].resource) < reqs[j].amount
  {
    if l.Get(reqs[0].resource) >= reqs[0].amount {
      ShortfallIsShort(l, reqs[1..]);
      var j :| 0 <= j < |reqs[1..]| && reqs[1..][j].resource == FirstShortfall(l, reqs).value
               && l.Get(reqs[1..][j].resource) < reqs[1..][j].amount;
      assert reqs[j + 1] == reqs[1..][j];
    }
  }

  /** The total amount of tier `t` in a list of requirements. */
  function AmountOf(reqs: seq<Requirement>, t: Tier): real
    decreases |reqs|
  {
    if reqs == [] then 0.0
    else AmountOf(reqs[..|reqs| - 1], t) + (if reqs[|reqs| - 1].resource == t then reqs[|reqs| - 1].amount else 0.0)
  }

  /** `resources[r] -= amount` for each requirement, in order. */
  function DebitAll(l: Ledger, reqs: seq<Requirement>): (r: Ledger)
    decreases |reqs|
    ensures forall t :: r.Get(t) == l.Get(t) - AmountOf(reqs, t)
    ensures l.Complete() ==> r.Complete()
  {
    if reqs == [] then l
    else
      var last := reqs[|reqs| - 1];
      DebitAll(l, reqs[..|reqs| - 1]).Add(last.resource, -last.amount)
  }

  /** `resources[r] += locked[r]` for each locked resource, in order. */
  function RefundAll(l: Ledger, locked: seq<Requirement>): (r: Ledger)
    decreases |locked|
    ensures forall t :: r.Get(t) == l.Get(t) + AmountOf(locked, t)
    ensures l.Complete() ==> r.Complete()
  {
    if locked == [] then l
    else
      var last := locked[|locked| - 1];
      RefundAll(l, locked[..|locked| - 1]).Add(last.resource, last.amount)
  }

  /** In a list that names each resource once, the total of a tier is its one amount, or 0 if it is not listed. */
  lemma {:induction false} AmountOfDistinct(reqs: seq<Requirement>, t: Tier)
    requires DistinctResources(reqs)
    decreases |reqs|
    ensures || (AmountOf(reqs, t) == 0.0 && forall j :: 0 <= j < |reqs| ==> reqs[j].resource != t)
            || (exists j :: 0 <= j < |reqs| && reqs[j].resource == t && AmountOf(reqs, t) == reqs[j].amount)
  {
    if reqs != [] {
      var init := reqs[..|reqs| - 1];
      assert DistinctResources(init);
      AmountOfDistinct(init, t);
      if reqs[|reqs| - 1].resource == t {
        assert forall j :: 0 <= j < |init| ==> init[j].resource != t;
      } else if AmountOf(init, t) != 0.0 || exists j :: 0 <= j < |init| && init[j].resource == t {
        var j :| 0 <= j < |init| && init[j].resource == t && AmountOf(init, t) == init[j].amount;
        assert reqs[j] == init[j];
      }
    }
  }

  // ----------------------------------------------------------------- start

  /** The entry `runProgram` records for a started program. */
  function Entry(p: Program): RunningProgram {
    RunningProgram(p.key, p.name, if p.permanent then None else p.duration, p.duration,
                   p.effect, p.dataRequired, p.permanent)
  }

  /** The program limit: `processingPower || 1`. */
  function Capacity(s: State): real {
    Or(s.meta.processingPower, 1.0)
  }

  /** The store once a program's cycles and collateral have been taken. */
  function Paid(s: State, p: Program): State {
    s.(meta := s.meta.(prestigeCurrency := s.meta.prestigeCurrency - p.cost),
       resources := DebitAll(s.resources, p.dataRequired))
  }

  /** `runProgram(program)`: the first failed check in order, or the new world. */
  function Started(w: World, p: Program): Result<World, RunError> {
    Start(w, p, IsProgramUnlocked(w.state.meta.prestigeCurrency, p.key))
  }

  /**
   * The checks and the commit of `runProgram`, given the answer `unlocked`
   * of `isProgramUnlocked(key)`; the lemmas below hold whatever that answer.
   */
  function Start(w: World, p: Program, unlocked: bool): Result<World, RunError> {
    var s := w.state;
    if w.running.Count() as real >= Capacity(s) then Failure(AtCapacity(Capacity(s)))
    else if !unlocked then Failure(NotUnlocked)
    else if s.meta.prestigeCurrency < p.cost then Failure(NotEnoughCycles)
    else match FirstShortfall(s.resources, p.dataRequired)
      case Some(t) => Failure(NotEnoughData(t))
      case None =>
        var paid := Paid(s, p);
        Success(World(if p.permanent then Effected(paid, p.effect) else paid,
                      w.running.Put(p.key, Entry(p))))
  }

  /** Program effects never touch the balances or the prestige currency. */
  lemma EffectKeepsBalances(s: State, e: ProgramEffect)
    ensures Effected(s, e).resources == s.resources
    ensures Effected(s, e).meta.prestigeCurrency == s.meta.prestigeCurrency
    ensures Effected(s, e).upgrades == s.upgrades && Effected(s, e).pending == s.pending
    ensures Effected(s, e).systems.revealedTiers == s.systems.revealedTiers
  {
  }

  /**
   * A start succeeds exactly when the running count is below the limit, the
   * program is unlocked, the currency covers the cost and every balance
   * covers its collateral; a refusal names the first check that failed.
   */
  lemma StartedIff(w: World, p: Program, unlocked: bool)
    ensures Start(w, p, unlocked).Success? <==>
      && w.running.Count() as real < Capacity(w.state)
      && unlocked
      && w.state.meta.prestigeCurrency >= p.cost
      && forall j :: 0 <= j < |p.dataRequired| ==> w.state.resources.Get(p.dataRequired[j].resource) >= p.dataRequired[j].amount
    ensures Start(w, p, unlocked).Failure? && Start(w, p, unlocked).error.AtCapacity? <==> w.running.Count() as real >= Capacity(w.state)
    ensures Start(w, p, unlocked).Failure? && Start(w, p, unlocked).error.NotEnoughData? ==>
      exists j :: 0 <= j < |p.dataRequired| && p.dataRequired[j].resource == Start(w, p, unlocked).error.resource
                  && w.state.resources.Get(p.dataRequired[j].resource) < p.dataRequired[j].amount
  {
    NoShortfall(w.state.resources, p.dataRequired);
    if FirstShortfall(w.state.resources, p.dataRequired).Some? {
      ShortfallIsShort(w.state.resources, p.dataRequired);
    }
  }

  /**
   * A started program costs exactly its cycles and its collateral, its entry
   * locks exactly `dataRequired`, and a key that was already running is
   * overwritten in place (the count stays) with no refund of what the
   * earlier entry had locked.
   */
  lemma StartedDebits(w: World, p: Program, unlocked: bool)
    requires Start(w, p, unlocked).Success?
    ensures var r := Start(w, p, unlocked).value;
      && r.state.meta.prestigeCurrency == w.state.meta.prestigeCurrency - p.cost
      && (forall t :: r.state.resources.Get(t) == w.state.resources.Get(t) - AmountOf(p.dataRequired, t))
      && p.key in r.running.values
      && r.running.values[p.key] == Entry(p)
      && r.running.values[p.key].locked == p.dataRequired
      && (forall k :: k != p.key ==> r.running.Get(k) == w.running.Get(k))
      && r.running.Count() == w.running.Count() + (if p.key in w.running.values then 0 else 1)
  {
    EffectKeepsBalances(Paid(w.state, p), p.effect);
  }

  /**
   * Starting a program never drives a balance or the prestige currency below
   * zero: every check passed, and the collateral names each resource once.
   */
  lemma StartedNonNegative(w: World, p: Program, unlocked: bool)
    requires Start(w, p, unlocked).Success?
    requires DistinctResources(p.dataRequired)
    requires w.state.resources.NonNegative() && w.state.meta.prestigeCurrency >= 0.0
    ensures Start(w, p, unlocked).value.state.resources.NonNegative()
    ensures Start(w, p, unlocked).value.state.meta.prestigeCurrency >= 0.0
  {
    var l := w.state.resources;
    StartedIff(w, p, unlocked);
    StartedDebits(w, p, unlocked);
    forall t ensures Start(w, p, unlocked).value.state.resources.Get(t) >= 0.0 {
      AmountOfDistinct(p.dataRequired, t);
    }
  }

  /**
   * A permanent program is recorded with no time remaining, and its effect
   * runs once, immediately, on the store after the cycles and collateral
   * were taken.
   */
  lemma StartedRunsPermanentOnce(w: World, p: Program, unlocked: bool)
    requires Start(w, p, unlocked).Success? && p.permanent
    ensures var r := Start(w, p, unlocked).value;
      && r.running.values[p.key].timeRemaining.None?
      && r.state == Effected(Paid(w.state, p), p.effect)
  {
  }

  /**
   * On the store as the page first loads it, `addPassiveYield` has no map to
   * write, so the background encryptor's one run faults; the fault is
   * swallowed and the cycles and collateral stay spent.
   */
  lemma PermanentFaultKeepsCost(w: World, p: Program, unlocked: bool)
    requires Start(w, p, unlocked).Success? && p.permanent && p.effect.AddPassiveYield?
    requires w.state.meta.passiveYield.None?
    ensures Start(w, p, unlocked).value.state == Paid(w.state, p)
  {
  }

  // ------------------------------------------------------------------ tick

  /** What one tick does to one entry: `None` once it has finished and is deleted. */
  function TickedEntry(e: Option<RunningProgram>): Option<RunningProgram> {
    match e
    case None => None
    case Some(prog) =>
      if prog.permanent then e
      else
        // `null - 1` is -1 in JavaScript
        var t := (if prog.timeRemaining.Some? then prog.timeRemaining.value else 0) - 1;
        if t <= 0 then None else Some(prog.(timeRemaining := Some(t)))
  }

  /** One iteration of the `tickPrograms` loop, for the entry under `key`. */
  function TickOne(w: World, key: string): World {
    if key !in w.running.values then w
    else
      var prog := w.running.values[key];
      match TickedEntry(Some(prog))
      case None => World(Effected(w.state, prog.effect), w.running.Remove(key))
      case Some(next) => World(w.state, w.running.Put(key, next))
  }

  /** The `tickPrograms` loop over `keys`, in order. */
  function TickKeys(w: World, keys: seq<string>): World
    decreases |keys|
  {
    if keys == [] then w else TickKeys(TickOne(w, keys[0]), keys[1..])
  }

  /** `tickPrograms()`: every running program, in insertion order. */
  function TickAll(w: World): World {
    TickKeys(w, w.running.keys)
  }

  /** One tick changes the store only by running the effect of a program that finished. */
  lemma TickOneState(w: World, key: string)
    ensures var r := TickOne(w, key);
      r.state == w.state
      || (key in w.running.values && TickedEntry(w.running.Get(key)).None?
          && r.state == Effected(w.state, w.running.values[key].effect))
  {
  }

  /**
   * Ticking a list of distinct keys ticks each listed entry exactly once,
   * independently of the others, and leaves every other entry alone.
   */
  lemma {:induction false} TickKeysEntries(w: World, keys: seq<string>)
    requires Distinct(keys) && w.running.Valid()
    decreases |keys|
    ensures forall k :: TickKeys(w, keys).running.Get(k) == if k in keys then TickedEntry(w.running.Get(k)) else w.running.Get(k)
  {
    if keys != [] {
      var w1 := TickOne(w, keys[0]);
      assert forall k :: w1.running.Get(k) == if k == keys[0] then TickedEntry(w.running.Get(k)) else w.running.Get(k);
      assert Distinct(keys[1..]);
      TickKeysEntries(w1, keys[1..]);
      forall k ensures TickKeys(w, keys).running.Get(k) == if k in keys then TickedEntry(w.running.Get(k)) else w.running.Get(k) {
        if k == keys[0] {
          assert k !in keys[1..];
        } else {
          assert k in keys <==> k in keys[1..];
        }
      }
    }
  }

  /** After `tickPrograms` each entry is what one tick makes of it on its own. */
  lemma TickAllEntries(w: World, k: string)
    requires w.running.Valid()
    ensures TickAll(w).running.Get(k) == TickedEntry(w.running.Get(k))
  {
    TickKeysEntries(w, w.running.keys);
    assert k in w.running.keys <==> k in w.running.values;
  }

  /**
   * `tickPrograms`: a permanent program is never decremented or removed;
   * any other program is counted down by exactly one tick and removed once
   * it reaches zero.
   */
  lemma TickCountsDown(w: World, k: string, prog: RunningProgram)
    requires w.running.Valid() && w.running.Get(k) == Some(prog)
    ensures prog.permanent ==> TickAll(w).running.Get(k) == Some(prog)
    ensures !prog.permanent && prog.timeRemaining.Some? ==>
      var t := prog.timeRemaining.value;
      TickAll(w).running.Get(k) == if t - 1 <= 0 then None else Some(prog.(timeRemaining := Some(t - 1)))
  {
    TickAllEntries(w, k);
    CountsDown(prog);
  }

  /** One tick of a single entry. */
  lemma CountsDown(prog: RunningProgram)
    ensures prog.permanent ==> TickedEntry(Some(prog)) == Some(prog)
    ensures !prog.permanent && prog.timeRemaining.Some? ==>
      var t := prog.timeRemaining.value;
      TickedEntry(Some(prog)) == if t - 1 <= 0 then None else Some(prog.(timeRemaining := Some(t - 1)))
  {
  }

  /** Ticking keeps the map well formed. */
  lemma {:induction false} TickKeysValid(w: World, keys: seq<string>)
    requires w.running.Valid()
    decreases |keys|
    ensures TickKeys(w, keys).running.Valid()
  {
    if keys != [] {
      TickKeysValid(TickOne(w, keys[0]), keys[1..]);
    }
  }

  /**
   * A program that finishes naturally refunds nothing: a tick leaves every
   * balance and the prestige currency exactly as they were.
   */
  lemma {:induction false} TickKeepsBalances(w: World, keys: seq<string>)
    decreases |keys|
    ensures TickKeys(w, keys).state.resources == w.state.resources
    ensures TickKeys(w, keys).state.meta.prestigeCurrency == w.state.meta.prestigeCurrency
    ensures TickKeys(w, keys).state.systems.revealedTiers == w.state.systems.revealedTiers
  {
    if keys != [] {
      TickOneState(w, keys[0]);
      if keys[0] in w.running.values {
        EffectKeepsBalances(w.state, w.running.values[keys[0]].effect);
      }
      TickKeepsBalances(TickOne(w, keys[0]), keys[1..]);
    }
  }

  // ---------------------------------------------------------------- cancel

  /** `cancelProgram(key)`: refund the locked collateral and forget the entry. */
  function Cancelled(w: World, key: string): World {
    if key !in w.running.values then w
    else World(w.state.(resources := RefundAll(w.state.resources, w.running.values[key].locked)),
               w.running.Remove(key))
  }

  /**
   * Cancelling an absent key does nothing; otherwise it adds back exactly
   * the locked amounts, removes the entry and changes nothing else. A
   * permanent program's effect is not undone.
   */
  lemma CancelRefunds(w: World, key: string)
    ensures key !in w.running.values ==> Cancelled(w, key) == w
    ensures key in w.running.values ==>
      var r := Cancelled(w, key);
      && (forall t :: r.state.resources.Get(t) == w.state.resources.Get(t) + AmountOf(w.running.values[key].locked, t))
      && r.state.(resources := w.state.resources) == w.state
      && key !in r.running.values
      && (forall k :: k != key ==> r.running.Get(k) == w.running.Get(k))
  {
  }

  /**
   * Starting a program that was not running and cancelling it before it
   * finishes gives back every resource it locked, but not its cycles.
   */
  lemma StartThenCancel(w: World, p: Program, unlocked: bool)
    requires Start(w, p, unlocked).Success? && !p.permanent && p.key !in w.running.values
    requires w.running.Valid() && w.state.resources.Complete()
    ensures var r := Cancelled(Start(w, p, unlocked).value, p.key);
      && r.state.resources == w.state.resources
      && r.state.meta.prestigeCurrency == w.state.meta.prestigeCurrency - p.cost
      && r.running == w.running
  {
    var started := Start(w, p, unlocked).value;
    assert started == World(Paid(w.state, p), w.running.Put(p.key, Entry(p)));
    var r := Cancelled(started, p.key);
    var l := w.state.resources;
    assert r.state.resources == RefundAll(DebitAll(l, p.dataRequired), p.dataRequired);
    LedgerExt(r.state.resources, l);
    PutThenRemove(w.running, p.key, Entry(p));
  }

  /** Adding a new key and deleting it again gives back the map, order included. */
  lemma PutThenRemove<V>(m: OMap<V>, k: string, v: V)
    requires m.Valid() && k !in m.values
    ensures m.Put(k, v).Remove(k) == m
  {
    assert k !in m.keys;
    WithoutAppended(m.keys, k);
    assert m.Put(k, v).Remove(k).values == m.values;
  }

  /** Dropping a key appended to a list that did not hold it gives back the list. */
  lemma {:induction false} WithoutAppended(xs: seq<string>, k: string)
    requires k !in xs
    decreases |xs|
    ensures Without(xs + [k], k) == xs
  {
    if xs != [] {
      assert (xs + [k])[1..] == xs[1..] + [k];
      WithoutAppended(xs[1..], k);
    }
  }

  // --------------------------------------------------------------- listing

  /** `[...runningPrograms.values()]`: the entries in insertion order. */
  function RunningList(r: OMap<RunningProgram>): (ps: seq<RunningProgram>)
    requires r.Valid()
    ensures |ps| == r.Count()
    ensures forall p :: p in ps <==> exists k :: k in r.values && r.values[k] == p
  {
    var ps := seq(|r.keys|, i requires 0 <= i < |r.keys| => r.values[r.keys[i]]);
    ListsRunning(r, ps);
    ps
  }

  lemma ListsRunning(r: OMap<RunningProgram>, ps: seq<RunningProgram>)
    requires r.Valid()
    requires |ps| == |r.keys| && forall i :: 0 <= i < |ps| ==> ps[i] == r.values[r.keys[i]]
    ensures forall p :: p in ps <==> exists k :: k in r.values && r.values[k] == p
  {
    forall p | p in ps ensures exists k :: k in r.values && r.values[k] == p {
      var i :| 0 <= i < |ps| && ps[i] == p;
      assert r.keys[i] in r.values;
    }
    forall k | k in r.values ensures r.values[k] in ps {
      var i :| 0 <= i < |r.keys| && r.keys[i] == k;
      assert ps[i] == r.values[k];
    }
  }

  // ------------------------------------------------------------- the state

  /** The module-level `runningPrograms` map. */
  class Executor {
    var running: OMap<RunningProgram>

    constructor ()
      ensures running == Empty()
    {
      running := Empty();
    }
  }

  /** `runProgram(program)` on the live store: `true` when the program started. */
  method RunProgram(g: Game, x: Executor, ui: UiRenderer.Renderer, p: Program) returns (started: bool)
    requires x.running.Valid()
    modifies g, x, ui
    ensures x.running.Valid()
    ensures ui.pending == (old(ui.pending) || started)
    ensures var r := Started(World(old(g.Snapshot()), old(x.running)), p);
      && (started <==> r.Success?)
      && (r.Success? ==> World(g.Snapshot(), x.running) == r.value)
      && (r.Failure? ==> g.Snapshot() == old(g.Snapshot()) && x.running == old(x.running))
  {
    var refusal := CheckStart(g, x, p);
    if refusal.Some? {
      return false;
    }
    Launch(g, x, p);
    ui.RequestTierUpdate();
    started := true;
  }

  /** What `runProgram` does once every check has passed: pay, record, and run a permanent effect. */
  method Launch(g: Game, x: Executor, p: Program)
    requires x.running.Valid()
    modifies g, x
    ensures x.running.Valid()
    ensures var paid := Paid(old(g.Snapshot()), p);
      && g.Snapshot() == (if p.permanent then Effected(paid, p.effect) else paid)
      && x.running == old(x.running).Put(p.key, Entry(p))
  {
    var locked := Pay(g, p);
    x.running := x.running.Put(p.key, RunningProgram(p.key, p.name, if p.permanent then None else p.duration,
                                                     p.duration, p.effect, locked, p.permanent));
    if p.permanent {
      var _ := RunEffect(g, p.effect);
    }
  }

  /** The four checks of `runProgram`, in order: the refusal, if any. */
  method CheckStart(g: Game, x: Executor, p: Program) returns (refusal: Option<RunError>)
    ensures var r := Started(World(g.Snapshot(), x.running), p);
      && (refusal.None? <==> r.Success?)
      && (refusal.Some? ==> r.error == refusal.value)
  {
    var limit := Or(g.meta.processingPower, 1.0);
    if |x.running.keys| as real >= limit {
      return Some(AtCapacity(limit));
    }
    if !IsProgramUnlocked(g.meta.prestigeCurrency, p.key) {
      return Some(NotUnlocked);
    }
    if g.meta.prestigeCurrency < p.cost {
      return Some(NotEnoughCycles);
    }
    var short := Shortfall(g.resources, p.dataRequired);
    if short.Some? {
      return Some(NotEnoughData(short.value));
    }
    return None;
  }

  /** The `for (let resource in dataRequired)` check loop. */
  method Shortfall(l: Ledger, reqs: seq<Requirement>) returns (short: Option<Tier>)
    ensures short == FirstShortfall(l, reqs)
  {
    var i := 0;
    while i < |reqs|
      invariant 0 <= i <= |reqs|
      invariant FirstShortfall(l, reqs) == FirstShortfall(l, reqs[i..])
    {
      assert reqs[i..][0] == reqs[i] && reqs[i..][1..] == reqs[i + 1..];
      if Or(l.Get(reqs[i].resource), 0.0) < reqs[i].amount {
        return Some(reqs[i].resource);
      }
      i := i + 1;
    }
    return None;
  }

  /** Deducting the cycles and locking the collateral, one resource at a time. */
  method Pay(g: Game, p: Program) returns (locked: seq<Requirement>)
    modifies g
    ensures g.Snapshot() == Paid(old(g.Snapshot()), p)
    ensures locked == p.dataRequired
  {
    ghost var s := g.Snapshot();
    g.meta := g.meta.(prestigeCurrency := g.meta.prestigeCurrency - p.cost);
    var reqs := p.dataRequired;
    locked := [];
    var i := 0;
    while i < |reqs|
      invariant 0 <= i <= |reqs|
      invariant locked == reqs[..i]
      invariant g.resources == DebitAll(s.resources, reqs[..i])
      invariant g.Snapshot() == s.(meta := s.meta.(prestigeCurrency := s.meta.prestigeCurrency - p.cost),
                                   resources := g.resources)
    {
      assert reqs[..i + 1][..i] == reqs[..i];
      locked := locked + [reqs[i]];
      g.resources := g.resources.Add(reqs[i].resource, -reqs[i].amount);
      i := i + 1;
    }
    assert reqs[..i] == reqs;
  }

  /** `tickPrograms()` on the live store. */
  method TickPrograms(g: Game, x: Executor)
    requires x.running.Valid()
    modifies g, x
    ensures World(g.Snapshot(), x.running) == TickAll(old(World(g.Snapshot(), x.running)))
    ensures x.running.Valid()
  {
    ghost var w := World(g.Snapshot(), x.running);
    var keys := x.running.keys;
    var i := 0;
    while i < |keys|
      invariant 0 <= i <= |keys|
      invariant TickKeys(World(g.Snapshot(), x.running), keys[i..]) == TickAll(w)
    {
      ghost var before := World(g.Snapshot(), x.running);
      assert keys[i..][0] == keys[i] && keys[i..][1..] == keys[i + 1..];
      assert TickKeys(before, keys[i..]) == TickKeys(TickOne(before, keys[i]), keys[i + 1..]);
      TickProgram(g, x, keys[i]);
      i := i + 1;
    }
    TickKeysValid(w, keys);
  }

  /** One iteration of the `tickPrograms` loop. */
  method TickProgram(g: Game, x: Executor, key: string)
    modifies g, x
    ensures World(g.Snapshot(), x.running) == TickOne(old(World(g.Snapshot(), x.running)), key)
  {
    if key !in x.running.values {
      return;
    }
    var prog := x.running.values[key];
    if prog.permanent {
      return;
    }
    var t := (if prog.timeRemaining.Some? then prog.timeRemaining.value else 0) - 1;
    prog := prog.(timeRemaining := Some(t));
    if t <= 0 {
      var _ := RunEffect(g, prog.effect);
      x.running := x.running.Remove(key);
    } else {
      x.running := x.running.Put(key, prog);
    }
  }

  /** `cancelProgram(key)` on the live store. */
  method CancelProgram(g: Game, x: Executor, ui: UiRenderer.Renderer, key: string)
    requires x.running.Valid()
    modifies g, x, ui
    ensures x.running.Valid()
    ensures ui.pending == (old(ui.pending) || key in old(x.running.values))
    ensures World(g.Snapshot(), x.running) == Cancelled(old(World(g.Snapshot(), x.running)), key)
  {
    if key !in x.running.values {
      return;
    }
    ghost var w := World(g.Snapshot(), x.running);
    var locked := x.running.values[key].locked;
    var i := 0;
    while i < |locked|
      invariant 0 <= i <= |locked|
      invariant g.resources == RefundAll(w.state.resources, locked[..i])
      invariant g.Snapshot() == w.state.(resources := g.resources) && x.running == w.running
    {
      assert locked[..i + 1][..i] == locked[..i];
      g.resources := g.resources.Add(locked[i].resource, locked[i].amount);
      i := i + 1;
    }
    assert locked[..i] == locked;
    x.running := x.running.Remove(key);
    ui.RequestTierUpdate();
  }

  /** `getRunningPrograms()`. */
  method GetRunningPrograms(x: Executor) returns (ps: seq<RunningProgram>)
    requires x.running.Valid()
    ensures ps == RunningList(x.running)
  {
    ps := RunningList(x.running);
  }
}
