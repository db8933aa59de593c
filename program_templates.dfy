/**
 * The program effect templates (scripts/data/programs/programTemplates.js).
 * A template call builds a `ProgramEffect`; `Applied` is what invoking the
 * returned closure does to the store, `None` when the closure throws before
 * it writes anything. `RunEffect` performs it on the live `Game`.
 */
module ProgramTemplates {
  import opened Wrappers
  import opened Utils
  import opened GameState

  datatype ProgramEffect =
    | GlobalMultiplierBoost(amount: real)
    | GlobalSpeedBoost(factor: real)
    | UnlockSystem(flag: string)
    | AddPassiveYield(resource: Tier, amount: real)
      /** Only the immediate `generation[field] *= multiplier`; `duration` drives the restore timer. */
    | TemporaryBoost(field: string, multiplier: real, duration: real)

  /** `passiveYield[r]`, with an absent entry read as zero. */
  function YieldOf(py: map<Tier, real>, r: Tier): real {
    if r in py then py[r] else 0.0
  }

  /** Invoking the closure a program effect template returned. */
  function Applied(s: State, e: ProgramEffect): Option<State> {
    match e
    case GlobalMultiplierBoost(a) =>
      Some(s.(systems := s.systems.(globalMultiplier := s.systems.globalMultiplier + a)))
    case GlobalSpeedBoost(f) =>
      // an absent speed multiplied is NaN, which stays "not a number"
      var speed := if s.systems.globalConversionSpeed.Some?
        then Some(s.systems.globalConversionSpeed.value * f) else None;
      Some(s.(systems := s.systems.(globalConversionSpeed := speed)))
    case UnlockSystem(flag) =>
      (match s.systems.unlocks
       case None => None
       case Some(u) => Some(s.(systems := s.systems.(unlocks := Some(u[flag := true])))))
    case AddPassiveYield(r, a) =>
      (match s.meta.passiveYield
       case None => None
       case Some(py) =>
         // a falsy entry (absent or 0) is first set to 0, then `a` is added
         var start := if YieldOf(py, r) == 0.0 then 0.0 else py[r];
         Some(s.(meta := s.meta.(passiveYield := Some(py[r := start + a])))))
    case TemporaryBoost(resource, mult, _) =>
      if resource == "manualGain" then
        Some(s.(generation := s.generation.(manualGain := s.generation.manualGain * mult)))
      else if resource == "bitGenAmount" then
        Some(s.(generation := s.generation.(bitGenAmount := s.generation.bitGenAmount * mult)))
      else
        Some(s)
  }

  /** The store after the effect ran inside a `try`: a fault leaves it as it was. */
  function Effected(s: State, e: ProgramEffect): State {
    Applied(s, e).GetOr(s)
  }

  /** The effect invoked `n` times in a row, every fault swallowed. */
  function EffectedN(s: State, e: ProgramEffect, n: nat): State
    decreases n
  {
    if n == 0 then s else EffectedN(Effected(s, e), e, n - 1)
  }

  /** `globalMultiplierBoost(a)` adds exactly `a` to the multiplier and changes nothing else. */
  lemma MultiplierBoostAdds(s: State, a: real)
    ensures Applied(s, GlobalMultiplierBoost(a)).Some?
    ensures var r := Applied(s, GlobalMultiplierBoost(a)).value;
      && r.systems.globalMultiplier - s.systems.globalMultiplier == a
      && r.(systems := r.systems.(globalMultiplier := s.systems.globalMultiplier)) == s
  {
  }

  /** A speed factor strictly between 0 and 1 makes a positive interval strictly shorter, and keeps it positive. */
  lemma SpeedBoostShortens(s: State, f: real)
    requires 0.0 < f < 1.0
    requires s.systems.globalConversionSpeed.Some? && s.systems.globalConversionSpeed.value > 0.0
    ensures Applied(s, GlobalSpeedBoost(f)).value.systems.globalConversionSpeed.Some?
    ensures 0.0 < Applied(s, GlobalSpeedBoost(f)).value.systems.globalConversionSpeed.value
    ensures Applied(s, GlobalSpeedBoost(f)).value.systems.globalConversionSpeed.value < s.systems.globalConversionSpeed.value
  {
    var v := s.systems.globalConversionSpeed.value;
    var w := Applied(s, GlobalSpeedBoost(f)).value.systems.globalConversionSpeed.value;
    assert w == v * f;
    var d := 1.0 - f;
    assert v - w == v * d;
    assert v * d > 0.0 && v * f > 0.0 by {
      assert d > 0.0 && v > 0.0 && f > 0.0;
    }
  }

  /** `unlockSystem(flag)` faults exactly when the `unlocks` map is absent; otherwise it sets that one entry. */
  lemma UnlockSystemOnlyFlag(s: State, flag: string)
    ensures Applied(s, UnlockSystem(flag)).None? <==> s.systems.unlocks.None?
    ensures s.systems.unlocks.Some? ==>
      var r := Applied(s, UnlockSystem(flag)).value;
      && r.systems.unlocks.Some?
      && flag in r.systems.unlocks.value && r.systems.unlocks.value[flag]
      && (forall k :: k != flag ==> (k in r.systems.unlocks.value <==> k in s.systems.unlocks.value))
      && (forall k :: k != flag && k in s.systems.unlocks.value ==> r.systems.unlocks.value[k] == s.systems.unlocks.value[k])
      && r.(systems := r.systems.(unlocks := s.systems.unlocks)) == s
  {
  }

  /** One `addPassiveYield(r, a)` adds `a` to the entry, starting from 0 when it is absent. */
  lemma PassiveYieldAddsOnce(s: State, r: Tier, a: real)
    requires s.meta.passiveYield.Some?
    ensures var t := Effected(s, AddPassiveYield(r, a));
      && t.meta.passiveYield.Some?
      && YieldOf(t.meta.passiveYield.value, r) == YieldOf(s.meta.passiveYield.value, r) + a
      && (forall u :: u != r ==> YieldOf(t.meta.passiveYield.value, u) == YieldOf(s.meta.passiveYield.value, u))
      && t.(meta := t.meta.(passiveYield := s.meta.passiveYield)) == s
  {
  }

  /** `n` runs of `addPassiveYield(r, a)` accumulate: the entry grows by `n * a`. */
  lemma {:induction false} PassiveYieldAccumulates(s: State, r: Tier, a: real, n: nat)
    requires s.meta.passiveYield.Some?
    decreases n
    ensures var t := EffectedN(s, AddPassiveYield(r, a), n);
      && t.meta.passiveYield.Some?
      && YieldOf(t.meta.passiveYield.value, r) == YieldOf(s.meta.passiveYield.value, r) + n as real * a
  {
    if n > 0 {
      var s1 := Effected(s, AddPassiveYield(r, a));
      PassiveYieldAddsOnce(s, r, a);
      PassiveYieldAccumulates(s1, r, a, n - 1);
    }
  }

  /**
   * The store as the page first loads it has neither `systems.unlocks` nor
   * `meta.passiveYield`, so `unlockSystem` and `addPassiveYield` throw there
   * and, swallowed, change nothing.
   */
  lemma InitialFaults(flag: string, r: Tier, a: real)
    ensures Applied(Initial(), UnlockSystem(flag)).None?
    ensures Applied(Initial(), AddPassiveYield(r, a)).None?
    ensures Effected(Initial(), UnlockSystem(flag)) == Initial()
    ensures Effected(Initial(), AddPassiveYield(r, a)) == Initial()
  {
  }

  /** The closure a program effect template returned, invoked on the live store. */
  method RunEffect(g: Game, e: ProgramEffect) returns (faulted: bool)
    modifies g
    ensures faulted <==> Applied(old(g.Snapshot()), e).None?
    ensures g.Snapshot() == Effected(old(g.Snapshot()), e)
  {
    faulted := false;
    match e
    case GlobalMultiplierBoost(a) =>
      g.systems := g.systems.(globalMultiplier := g.systems.globalMultiplier + a);
    case GlobalSpeedBoost(f) =>
      if g.systems.globalConversionSpeed.Some? {
        var v := g.systems.globalConversionSpeed.value;
        g.systems := g.systems.(globalConversionSpeed := Some(v * f));
        assert Applied(old(g.Snapshot()), e).value.systems.globalConversionSpeed.value == v * f;
      }
    case UnlockSystem(flag) =>
      if g.systems.unlocks.None? {
        faulted := true;
      } else {
        g.systems := g.systems.(unlocks := Some(g.systems.unlocks.value[flag := true]));
      }
    case AddPassiveYield(r, a) =>
      if g.meta.passiveYield.None? {
        faulted := true;
      } else {
        var py := g.meta.passiveYield.value;
        var start := if YieldOf(py, r) == 0.0 then 0.0 else py[r];
        g.meta := g.meta.(passiveYield := Some(py[r := start + a]));
      }
    case TemporaryBoost(resource, mult, _) =>
      if resource == "manualGain" {
        g.generation := g.generation.(manualGain := g.generation.manualGain * mult);
      } else if resource == "bitGenAmount" {
        g.generation := g.generation.(bitGenAmount := g.generation.bitGenAmount * mult);
      }
  }
}
