/**
 * The conversion engine (scripts/core/engine.js): converting one tier into
 * another with diminishing returns, clicks, and the per-tick generation,
 * auto-conversion, auto-trade and multiplier passes. Each pass is a function
 * on `State` (the specification) and a method that performs it on the live
 * `Game` step by step.
 */
module Engine {
  import opened Wrappers
  import opened Text
  import opened Utils
  import opened RealMath
  import opened OrderedMaps
  import opened UpgradeEffects
  import opened GameState
  import opened UpgradeTemplates
  import ProgramExecutor
  import UiRenderer

  /** Why a manual conversion was refused (the text of its alert). */
  datatype ConvertError = InvalidRate | NotEnough(from: string)

  /** The diminishing-returns exponent cut: `min(0.5, log10(max(1, amount)) / 20)`. */
  function Diminishing(amount: real, m: Math): real {
    Min(0.5, m.log10(Max(1.0, amount)) / 20.0)
  }

  /** `conversionBonuses[t] || 1`. */
  function BonusFor(s: State, t: Tier): real {
    if t in s.upgrades.conversionBonuses then Or(s.upgrades.conversionBonuses[t], 1.0) else 1.0
  }

  /** The output of converting `amount` units: `(amount * bonus * multiplier) ** (1 - d)`. */
  function Gain(amount: real, bonus: real, mult: real, m: Math): real {
    m.pow(amount * bonus * mult, 1.0 - Diminishing(amount, m))
  }

  /** `convertResources` once both keys are known to be resources. */
  function Convert(s: State, f: Tier, t: Tier, amount: real, rate: real, bonus: real, mult: real, m: Math): State {
    var cost := rate * amount;
    if s.resources.Get(f) < cost then s
    else
      s.(resources := s.resources.Add(f, -cost).Add(t, Gain(amount, bonus, mult, m)),
         generation := s.generation.(conversionCounts := s.generation.conversionCounts[t := s.generation.Count(t) + 1]))
  }

  /** `convertResources(from, to, amount, rate, bonus, multiplier)`. */
  function Converted(s: State, from: string, to: string, amount: real, rate: real, bonus: real, mult: real, m: Math): State {
    match (ParseTier(from), ParseTier(to))
    case (Some(f), Some(t)) => Convert(s, f, t, amount, rate, bonus, mult, m)
    case _ => s
  }

  /** A source or target that is not a resource key leaves the store unchanged. */
  lemma ConvertUnknownKey(s: State, from: string, to: string, amount: real, rate: real, bonus: real, mult: real, m: Math)
    requires ParseTier(from).None? || ParseTier(to).None?
    ensures Converted(s, from, to, amount, rate, bonus, mult, m) == s
  {
  }

  /**
   * A conversion either changes nothing (the balance is short of
   * `rate * amount`) or debits exactly `rate * amount` from the source,
   * credits the gain to the target, counts one conversion into the target
   * whatever the amount, and touches nothing else.
   */
  lemma ConvertCommits(s: State, f: Tier, t: Tier, amount: real, rate: real, bonus: real, mult: real, m: Math)
    requires f != t
    ensures var r := Convert(s, f, t, amount, rate, bonus, mult, m);
            if s.resources.Get(f) < rate * amount then r == s
            else
              && r.resources.Get(f) == s.resources.Get(f) - rate * amount
              && r.resources.Get(f) >= 0.0
              && r.resources.Get(t) == s.resources.Get(t) + Gain(amount, bonus, mult, m)
              && (forall u :: u != f && u != t ==> r.resources.Get(u) == s.resources.Get(u))
              && r.generation.Count(t) == s.generation.Count(t) + 1
              && (forall u :: u != t ==> r.generation.Count(u) == s.generation.Count(u))
              && r.systems == s.systems && r.upgrades == s.upgrades && r.meta == s.meta
              && r.pending == s.pending
  {
    var r := Convert(s, f, t, amount, rate, bonus, mult, m);
    if s.resources.Get(f) >= rate * amount {
      assert r.resources == s.resources.Add(f, -(rate * amount)).Add(t, Gain(amount, bonus, mult, m));
    }
  }

  /** Two resource keys convert between the tiers they name. */
  lemma ConvertKnownKeys(s: State, f: Tier, t: Tier, amount: real, rate: real, bonus: real, mult: real, m: Math)
    ensures Converted(s, TierName(f), TierName(t), amount, rate, bonus, mult, m) == Convert(s, f, t, amount, rate, bonus, mult, m)
  {
    ParseTierName(f);
    ParseTierName(t);
  }

  /** Converting a single unit has no diminishing returns: the gain is exactly `bonus * multiplier`. */
  lemma SingleUnitGain(bonus: real, mult: real, m: Math)
    requires Lawful(m)
    ensures Gain(1.0, bonus, mult, m) == bonus * mult
  {
    assert Max(1.0, 1.0) == 1.0;
    assert Diminishing(1.0, m) == 0.0;
  }

  /** The diminishing-returns exponent lies in [1/2, 1] for every amount of at least one unit. */
  lemma ExponentBounds(amount: real, m: Math)
    requires Lawful(m)
    ensures 0.5 <= 1.0 - Diminishing(amount, m) <= 1.0
  {
    assert m.log10(Max(1.0, amount)) >= 0.0;
  }

  /** The live version of `convertResources`. */
  method ConvertResources(g: Game, from: string, to: string, amount: real, rate: real, bonus: real, mult: real, m: Math)
    modifies g
    ensures g.Snapshot() == Converted(old(g.Snapshot()), from, to, amount, rate, bonus, mult, m)
  {
    var f := ParseTier(from);
    var t := ParseTier(to);
    if f.None? || t.None? {
      return;
    }
    var cost := rate * amount;
    if g.resources.Get(f.value) < cost {
      return;
    }
    var gain := Gain(amount, bonus, mult, m);
    g.resources := g.resources.Add(f.value, -cost);
    g.resources := g.resources.Add(t.value, gain);
    g.generation := g.generation.(conversionCounts := g.generation.conversionCounts[t.value := g.generation.Count(t.value) + 1]);
  }

  /** `manualConvert(from, to)`: one unit, or the alert that refused it. */
  function ManuallyConverted(s: State, from: string, to: string, m: Math): Result<State, ConvertError> {
    var rate := ConversionRate(from, to);
    if rate.None? || rate.value <= 0.0 then Failure(InvalidRate)
    else
      var t := ParseTier(to).value;
      var f := ParseTier(from).value;
      if s.resources.Get(f) < rate.value then Failure(NotEnough(from))
      else Success(Converted(s, from, to, 1.0, rate.value, BonusFor(s, t), s.systems.globalMultiplier, m))
  }

  /**
   * A manual conversion between two tiers succeeds exactly when the source
   * holds at least one rate's worth, and then spends exactly one rate and
   * credits `bonus * multiplier`.
   */
  lemma ManualConvertOneUnit(s: State, f: Tier, t: Tier, m: Math)
    requires Lawful(m) && f != t
    ensures var r := ManuallyConverted(s, TierName(f), TierName(t), m);
            var rate := TierRate(f, t);
            && (r.Success? <==> s.resources.Get(f) >= rate)
            && (r.Failure? ==> r.error == NotEnough(TierName(f)))
            && (r.Success? ==>
                  && r.value.resources.Get(f) == s.resources.Get(f) - rate
                  && r.value.resources.Get(t) == s.resources.Get(t) + BonusFor(s, t) * s.systems.globalMultiplier)
  {
    RateOf(f, t);
    var rate := TierRate(f, t);
    SingleUnitGain(BonusFor(s, t), s.systems.globalMultiplier, m);
    ConvertKnownKeys(s, f, t, 1.0, rate, BonusFor(s, t), s.systems.globalMultiplier, m);
    ConvertCommits(s, f, t, 1.0, rate, BonusFor(s, t), s.systems.globalMultiplier, m);
  }

  /** A pair that is not two resource keys is refused as an invalid rate and changes nothing. */
  lemma ManualConvertUnknown(s: State, from: string, to: string, m: Math)
    requires ParseTier(from).None? || ParseTier(to).None?
    ensures ManuallyConverted(s, from, to, m) == Failure(InvalidRate)
    ensures ManuallyConvertedMax(s, from, to, m) == Failure(InvalidRate)
  {
  }

  method ManualConvert(g: Game, ui: UiRenderer.Renderer, from: string, to: string, m: Math) returns (alert: Option<ConvertError>)
    modifies g, ui
    ensures ui.pending == (old(ui.pending) || alert.None?)
    ensures var r := ManuallyConverted(old(g.Snapshot()), from, to, m);
            && (r.Success? ==> alert.None? && g.Snapshot() == r.value)
            && (r.Failure? ==> alert == Some(r.error) && g.Snapshot() == old(g.Snapshot()))
  {
    var rate := ConversionRate(from, to);
    if rate.None? || rate.value <= 0.0 {
      return Some(InvalidRate);
    }
    var bonus := BonusFor(g.Snapshot(), ParseTier(to).value);
    var multiplier := g.systems.globalMultiplier;
    if g.resources.Get(ParseTier(from).value) < rate.value {
      return Some(NotEnough(from));
    }
    ConvertResources(g, from, to, 1.0, rate.value, bonus, multiplier, m);
    alert := None;
    ui.RequestTierUpdate();
  }

  /** `manualConvertMax(from, to)`: every affordable unit, `floor(balance / rate)`, at once. */
  function ManuallyConvertedMax(s: State, from: string, to: string, m: Math): Result<State, ConvertError> {
    var rate := ConversionRate(from, to);
    if rate.None? || rate.value <= 0.0 then Failure(InvalidRate)
    else
      var t := ParseTier(to).value;
      var f := ParseTier(from).value;
      var most := FloorDiv(s.resources.Get(f), rate.value);
      if most <= 0.0 then Failure(NotEnough(from))
      else Success(Converted(s, from, to, most, rate.value, BonusFor(s, t), s.systems.globalMultiplier, m))
  }

  /**
   * A manual max conversion is refused exactly when `floor(balance / rate) <= 0`,
   * and otherwise converts exactly that many units, leaving less than one
   * rate's worth of the source behind.
   */
  lemma ManualConvertMaxAll(s: State, f: Tier, t: Tier, m: Math)
    ensures var r := ManuallyConvertedMax(s, TierName(f), TierName(t), m);
            var rate := TierRate(f, t);
            var most := FloorDiv(s.resources.Get(f), rate);
            && (r.Success? <==> most > 0.0)
            && (r.Failure? ==> r.error == NotEnough(TierName(f)))
            && (r.Success? ==> r.value == Convert(s, f, t, most, rate, BonusFor(s, t), s.systems.globalMultiplier, m))
  {
    RateOf(f, t);
    ConvertKnownKeys(s, f, t, FloorDiv(s.resources.Get(f), TierRate(f, t)), TierRate(f, t),
                     BonusFor(s, t), s.systems.globalMultiplier, m);
  }

  /**
   * Converting every affordable unit spends `floor(balance / rate) * rate`,
   * leaves less than one rate's worth of the source, and credits the gain
   * for that many units.
   */
  lemma ConvertAllAffordable(s: State, f: Tier, t: Tier, rate: real, bonus: real, mult: real, m: Math)
    requires f != t && rate > 0.0 && FloorDiv(s.resources.Get(f), rate) > 0.0
    ensures var most := FloorDiv(s.resources.Get(f), rate);
            var r := Convert(s, f, t, most, rate, bonus, mult, m);
            && r.resources.Get(f) == s.resources.Get(f) - most * rate
            && 0.0 <= r.resources.Get(f) < rate
            && r.resources.Get(t) == s.resources.Get(t) + Gain(most, bonus, mult, m)
            && r.generation.Count(t) == s.generation.Count(t) + 1
  {
    AffordableLeftover(s.resources.Get(f), rate);
    ConvertCommits(s, f, t, FloorDiv(s.resources.Get(f), rate), rate, bonus, mult, m);
  }

  /** Taking `floor(x / rate)` units of `rate` leaves between zero and one rate's worth. */
  lemma AffordableLeftover(x: real, rate: real)
    requires rate > 0.0
    ensures rate * FloorDiv(x, rate) == FloorDiv(x, rate) * rate
    ensures rate * FloorDiv(x, rate) <= x && 0.0 <= x - FloorDiv(x, rate) * rate < rate
  {
  }

  method ManualConvertMax(g: Game, ui: UiRenderer.Renderer, from: string, to: string, m: Math) returns (alert: Option<ConvertError>)
    modifies g, ui
    ensures ui.pending == (old(ui.pending) || alert.None?)
    ensures var r := ManuallyConvertedMax(old(g.Snapshot()), from, to, m);
            && (r.Success? ==> alert.None? && g.Snapshot() == r.value)
            && (r.Failure? ==> alert == Some(r.error) && g.Snapshot() == old(g.Snapshot()))
  {
    var rate := ConversionRate(from, to);
    if rate.None? || rate.value <= 0.0 {
      return Some(InvalidRate);
    }
    var bonus := BonusFor(g.Snapshot(), ParseTier(to).value);
    var multiplier := g.systems.globalMultiplier;
    var most := FloorDiv(g.resources.Get(ParseTier(from).value), rate.value);
    if most <= 0.0 {
      return Some(NotEnough(from));
    }
    ConvertResources(g, from, to, most, rate.value, bonus, multiplier, m);
    alert := None;
    ui.RequestTierUpdate();
  }

  /** The production multiplier a click or a tick uses: the global one plus the nibble boost. */
  function ProductionMultiplier(s: State): real {
    s.systems.globalMultiplier + (if s.generation.nibbleBoostEnabled then s.resources.Get(Nibble) * 0.001 else 0.0)
  }

  /** What a click pays in bits: `manualGain * multiplier`. */
  function ClickGain(s: State): real {
    s.generation.manualGain * ProductionMultiplier(s)
  }

  /** `generateBit()`: one click. */
  function Clicked(s: State): State {
    var counter := s.generation.clickCounter + 1;
    var bonusDue := s.generation.clickBonusActive && counter >= 5;
    var withBonus := if bonusDue then s.resources.Add(Bit, 5.0 * ProductionMultiplier(s)) else s.resources;
    s.(resources := withBonus.Add(Bit, ClickGain(s)),
       generation := s.generation.(clickCounter := if bonusDue then 0 else counter))
  }

  /** `n` clicks in a row. */
  function ClickedN(s: State, n: nat): State
    decreases n
  {
    if n == 0 then s else ClickedN(Clicked(s), n - 1)
  }

  /**
   * A click always pays `manualGain * multiplier` and, with the click bonus
   * active, the fifth click in a row also pays `5 * multiplier` and restarts
   * the count: five clicks from a zero count pay exactly five gains and one
   * bonus and end at a zero count again.
   */
  lemma {:induction false} ClickBonusEveryFifth(s: State)
    requires s.generation.clickBonusActive && s.generation.clickCounter == 0
    requires !s.generation.nibbleBoostEnabled
    ensures var r := ClickedN(s, 5);
            var mult := s.systems.globalMultiplier;
            && r.generation.clickCounter == 0
            && r.resources.Get(Bit) == s.resources.Get(Bit) + 5.0 * s.generation.manualGain * mult + 5.0 * mult
            && (forall u :: u != Bit ==> r.resources.Get(u) == s.resources.Get(u))
  {
    var s1 := Clicked(s);
    var s2 := Clicked(s1);
    var s3 := Clicked(s2);
    var s4 := Clicked(s3);
    var s5 := Clicked(s4);
    assert s4.generation.clickCounter == 4;
    assert ClickedN(s, 5) == s5 by {
      assert ClickedN(s4, 1) == s5;
      assert ClickedN(s3, 2) == s5;
      assert ClickedN(s2, 3) == s5;
      assert ClickedN(s1, 4) == s5;
    }
  }

  /** Without the click bonus a click only counts and pays the manual gain. */
  lemma ClickWithoutBonus(s: State)
    requires !s.generation.clickBonusActive
    ensures Clicked(s).generation.clickCounter == s.generation.clickCounter + 1
    ensures Clicked(s).resources.Get(Bit) == s.resources.Get(Bit) + s.generation.manualGain * ProductionMultiplier(s)
    ensures forall u :: u != Bit ==> Clicked(s).resources.Get(u) == s.resources.Get(u)
  {
  }

  method GenerateBit(g: Game, ui: UiRenderer.Renderer)
    modifies g, ui
    ensures g.Snapshot() == Clicked(old(g.Snapshot()))
    ensures ui.pending
  {
    var multiplier := ProductionMultiplier(g.Snapshot());
    var gain := ClickGain(g.Snapshot());
    g.generation := g.generation.(clickCounter := g.generation.clickCounter + 1);
    if g.generation.clickBonusActive && g.generation.clickCounter >= 5 {
      g.resources := g.resources.Add(Bit, 5.0 * multiplier);
      g.generation := g.generation.(clickCounter := 0);
    }
    g.resources := g.resources.Add(Bit, gain);
    ui.RequestTierUpdate();
  }

  /** The bits one tick of the generators yields: `bitGenAmount * multiplier * (1 + speed / 10)`. */
  function GeneratedBits(s: State): real {
    s.generation.bitGenAmount * ProductionMultiplier(s) * (1.0 + s.meta.speed * 0.1)
  }

  /** `processAutoGeneration()`: the generators' bits are added to the bit balance. */
  function AutoGenerated(s: State): State {
    s.(resources := s.resources.Add(Bit, GeneratedBits(s)))
  }

  /** Auto-generation only ever adds bits, when every factor is non-negative. */
  lemma AutoGenerationAddsBits(s: State)
    requires s.generation.bitGenAmount >= 0.0 && ProductionMultiplier(s) >= 0.0 && s.meta.speed >= 0.0
    ensures AutoGenerated(s).resources.Get(Bit) >= s.resources.Get(Bit)
    ensures forall u :: u != Bit ==> AutoGenerated(s).resources.Get(u) == s.resources.Get(u)
    ensures AutoGenerated(s).(resources := s.resources) == s
  {
    var speedFactor := 1.0 + s.meta.speed * 0.1;
    assert s.generation.bitGenAmount * ProductionMultiplier(s) >= 0.0;
    assert s.generation.bitGenAmount * ProductionMultiplier(s) * speedFactor >= 0.0;
  }

  method ProcessAutoGeneration(g: Game)
    modifies g
    ensures g.Snapshot() == AutoGenerated(old(g.Snapshot()))
  {
    var bits := GeneratedBits(g.Snapshot());
    g.resources := g.resources.Add(Bit, bits);
  }

  /** What `processAutoConversions` does for one toggle key. */
  function AutoConvertOne(s: State, key: string, m: Math): State {
    if EndsWith(key, "_max") || s.systems.autoConvertToggles.Get(key) != Some(true) then s
    else
      var parts := Split(key, "_");
      var from := Part(parts, 0);
      var to := Part(parts, 2);
      if from.None? || to.None? then s
      else
        var ratio := ConversionRate(from.value, to.value);
        if ratio.None? then s
        else
          var f := ParseTier(from.value).value;
          var t := ParseTier(to.value).value;
          var available := FloorDiv(s.resources.Get(f), ratio.value);
          if available <= 0.0 then s
          else
            var runMax := s.systems.autoConvertToggles.Get(key + "_max") == Some(true)
                          && key in s.systems.autoConvertMaxUnlocked && s.systems.autoConvertMaxUnlocked[key];
            var conversions := if runMax then available else 1.0;
            Converted(s, from.value, to.value, conversions, ratio.value, BonusFor(s, t), s.systems.globalMultiplier, m)
  }

  /** Auto-conversion over a list of keys, in order. */
  function AutoConvertAll(s: State, keys: seq<string>, m: Math): State
    decreases |keys|
  {
    if keys == [] then s else AutoConvertOne(AutoConvertAll(s, keys[..|keys| - 1], m), keys[|keys| - 1], m)
  }

  /** `processAutoConversions()`: every toggle key in insertion order. */
  function AutoConverted(s: State, m: Math): State {
    AutoConvertAll(s, s.systems.autoConvertToggles.keys, m)
  }

  /** Auto-conversion never touches the toggles, the unlocks, the upgrades or meta. */
  lemma {:induction false} AutoConvertKeepsSystems(s: State, keys: seq<string>, m: Math)
    ensures AutoConvertAll(s, keys, m).systems == s.systems
    ensures AutoConvertAll(s, keys, m).upgrades == s.upgrades
    ensures AutoConvertAll(s, keys, m).meta == s.meta
    ensures AutoConvertAll(s, keys, m).pending == s.pending
    decreases |keys|
  {
    if keys != [] {
      AutoConvertKeepsSystems(s, keys[..|keys| - 1], m);
    }
  }

  /** The key of an automation pair splits back into its two tiers. */
  lemma ConvertKeyParts(f: Tier, t: Tier)
    ensures Split(ConvertKey(f, t), "_") == [TierName(f), "to", TierName(t)]
    ensures Split(ConvertKey(f, t), "_to_") == [TierName(f), TierName(t)]
    ensures !EndsWith(ConvertKey(f, t), "_max")
  {
    NoUnderscore(f);
    NoUnderscore(t);
    LastLetter(t);
    PairSplitWords(TierName(f), TierName(t));
    PairSplitTiers(TierName(f), TierName(t));
    PairNotMax(TierName(f), TierName(t));
  }

  /** No tier name ends in `x`, so no automation key ends in `_max`. */
  lemma LastLetter(t: Tier)
    ensures |TierName(t)| > 0 && TierName(t)[|TierName(t)| - 1] != 'x'
  {
  }

  /** Splitting `"<a>_to_<b>"` on `_` yields its three words. */
  lemma PairSplitWords(a: string, b: string)
    requires '_' !in a && '_' !in b
    ensures Split(a + "_to_" + b, "_") == [a, "to", b]
  {
    assert a + "_to_" + b == a + "_" + ("to" + "_" + b);
    SplitCons(a, "_", "to" + "_" + b);
    SplitAround("to", "_", b);
  }

  /** Splitting `"<a>_to_<b>"` on `_to_` yields its two tiers. */
  lemma PairSplitTiers(a: string, b: string)
    requires '_' !in a && '_' !in b
    ensures Split(a + "_to_" + b, "_to_") == [a, b]
  {
    SplitAround(a, "_to_", b);
  }

  /** `"<a>_to_<b>"` does not end in `_max` when `b` does not end in `x`. */
  lemma PairNotMax(a: string, b: string)
    requires |b| > 0 && b[|b| - 1] != 'x'
    ensures !EndsWith(a + "_to_" + b, "_max")
  {
    var key := a + "_to_" + b;
    assert key[|key| - 1] == b[|b| - 1];
  }

  /**
   * An enabled automation key `"<f>_to_<t>"` converts `f` into `t` at the
   * tier rate: one unit, or every affordable unit when both its `_max`
   * toggle and its auto-max unlock are set; a disabled key, or a balance
   * short of one rate, does nothing.
   */
  lemma AutoConvertOneRule(s: State, f: Tier, t: Tier, m: Math)
    ensures var key := ConvertKey(f, t);
            var rate := TierRate(f, t);
            var available := FloorDiv(s.resources.Get(f), rate);
            var runMax := s.systems.autoConvertToggles.Get(key + "_max") == Some(true)
                          && key in s.systems.autoConvertMaxUnlocked && s.systems.autoConvertMaxUnlocked[key];
            AutoConvertOne(s, key, m)
              == if s.systems.autoConvertToggles.Get(key) != Some(true) || available <= 0.0 then s
                 else Convert(s, f, t, if runMax then available else 1.0, rate,
                              BonusFor(s, t), s.systems.globalMultiplier, m)
  {
    ConvertKeyParts(f, t);
    RateOf(f, t);
    var rate := TierRate(f, t);
    var available := FloorDiv(s.resources.Get(f), rate);
    ConvertKnownKeys(s, f, t, available, rate, BonusFor(s, t), s.systems.globalMultiplier, m);
    ConvertKnownKeys(s, f, t, 1.0, rate, BonusFor(s, t), s.systems.globalMultiplier, m);
  }

  /** A key that ends in `_max` is the checkbox's own entry and never converts anything. */
  lemma AutoConvertSkipsMaxKeys(s: State, key: string, m: Math)
    requires EndsWith(key, "_max") || s.systems.autoConvertToggles.Get(key) != Some(true)
    ensures AutoConvertOne(s, key, m) == s
  {
  }

  /** Worked case: 100 bits, bit-to-nibble enabled without max mode, leaves 96 bits. */
  lemma AutoConvertHundredBits(s: State, m: Math)
    requires s.resources.Get(Bit) == 100.0
    requires s.systems.autoConvertToggles.Get("bit_to_nibble") == Some(true)
    requires s.systems.autoConvertToggles.Get("bit_to_nibble_max") != Some(true)
    ensures AutoConvertOne(s, "bit_to_nibble", m).resources.Get(Bit) == 96.0
  {
    var key := ConvertKey(Bit, Nibble);
    assert key == "bit_to_nibble";
    assert key + "_max" == "bit_to_nibble_max";
    assert TierRate(Bit, Nibble) == 4.0;
    FloorDivExact(100.0, 4.0, 25);
    AutoConvertOneRule(s, Bit, Nibble, m);
    assert AutoConvertOne(s, key, m) == Convert(s, Bit, Nibble, 1.0, 4.0, BonusFor(s, Nibble), s.systems.globalMultiplier, m);
    ConvertCommits(s, Bit, Nibble, 1.0, 4.0, BonusFor(s, Nibble), s.systems.globalMultiplier, m);
  }

  method ProcessAutoConversions(g: Game, m: Math)
    modifies g
    ensures g.Snapshot() == AutoConverted(old(g.Snapshot()), m)
  {
    var keys := g.systems.autoConvertToggles.keys;
    ghost var s0 := g.Snapshot();
    var i := 0;
    while i < |keys|
      invariant 0 <= i <= |keys|
      invariant g.Snapshot() == AutoConvertAll(s0, keys[..i], m)
      invariant g.systems == s0.systems
    {
      assert keys[..i + 1][..i] == keys[..i];
      AutoConvertKeepsSystems(s0, keys[..i + 1], m);
      AutoConvertStep(g, keys[i], m);
      i := i + 1;
    }
    assert keys[..i] == keys;
  }

  /** One iteration of the auto-conversion loop, on the live store. */
  method AutoConvertStep(g: Game, key: string, m: Math)
    modifies g
    ensures g.Snapshot() == AutoConvertOne(old(g.Snapshot()), key, m)
  {
    if EndsWith(key, "_max") {
      return;
    }
    var toggleState := g.systems.autoConvertToggles.Get(key);
    if toggleState != Some(true) {
      return;
    }
    var parts := Split(key, "_");
    var from := Part(parts, 0);
    var to := Part(parts, 2);
    if from.None? || to.None? {
      return;
    }
    var runMax := g.systems.autoConvertToggles.Get(key + "_max") == Some(true);
    var ratio := ConversionRate(from.value, to.value);
    if ratio.None? {
      return;
    }
    var bonus := BonusFor(g.Snapshot(), ParseTier(to.value).value);
    var available := FloorDiv(g.resources.Get(ParseTier(from.value).value), ratio.value);
    if available <= 0.0 {
      return;
    }
    var conversions := if runMax && key in g.systems.autoConvertMaxUnlocked && g.systems.autoConvertMaxUnlocked[key]
                       then available else 1.0;
    ConvertResources(g, from.value, to.value, conversions, ratio.value, bonus, g.systems.globalMultiplier, m);
  }

  /** The batch size of an auto-trade key: `autoTradeBatches[key] || 1`, never zero. */
  function TradeBatch(s: State, key: string): (b: real)
    ensures b != 0.0
  {
    if key in s.systems.autoTradeBatches.values then Or(s.systems.autoTradeBatches.values[key], 1.0) else 1.0
  }

  /**
   * One auto-trade once the source is known: every whole batch of `f` is
   * debited, and the target, when it is a resource key, is credited one unit
   * per batch.
   */
  function Trade(s: State, f: Tier, to: Option<Tier>, batch: real): State
    requires batch != 0.0
  {
    TradeBatches(s, f, to, batch, FloorDiv(s.resources.Get(f), batch))
  }

  /** The trade of `available` whole batches, nothing when there are none. */
  function TradeBatches(s: State, f: Tier, to: Option<Tier>, batch: real, available: real): State {
    if available <= 0.0 then s
    else
      var debited := s.resources.Add(f, -(available * batch));
      s.(resources := if to.Some? then debited.Add(to.value, available) else debited)
  }

  /** What `processAutoTrades` does for one batch key `"<from>_to_<to>"`. */
  function AutoTradeOne(s: State, key: string): State {
    var parts := Split(key, "_to_");
    var from := ParseTier(parts[0]);
    var to := if |parts| > 1 then ParseTier(parts[1]) else None;
    if from.None? then s else Trade(s, from.value, to, TradeBatch(s, key))
  }

  function AutoTradeAll(s: State, keys: seq<string>): State
    decreases |keys|
  {
    if keys == [] then s else AutoTradeOne(AutoTradeAll(s, keys[..|keys| - 1]), keys[|keys| - 1])
  }

  /** `processAutoTrades()`: every batch key in insertion order. */
  function AutoTraded(s: State): State {
    AutoTradeAll(s, s.systems.autoTradeBatches.keys)
  }

  /** Auto-trading only moves resource balances. */
  lemma {:induction false} AutoTradeKeepsRest(s: State, keys: seq<string>)
    ensures AutoTradeAll(s, keys).(resources := s.resources) == s
    decreases |keys|
  {
    if keys != [] {
      AutoTradeKeepsRest(s, keys[..|keys| - 1]);
    }
  }

  /** An automation key names its two tiers to the auto-trader. */
  lemma TradeKnownKey(s: State, f: Tier, t: Tier)
    ensures AutoTradeOne(s, ConvertKey(f, t)) == Trade(s, f, Some(t), TradeBatch(s, ConvertKey(f, t)))
  {
    ConvertKeyParts(f, t);
    ParseTierName(f);
    ParseTierName(t);
  }

  /**
   * A trade of positive batch size `b` that clears at least one batch leaves
   * the source at `balance - floor(balance / b) * b`, which lies in `[0, b)`,
   * and credits the target with `floor(balance / b)` units one for one.
   */
  lemma TradeRemainder(s: State, f: Tier, t: Tier, b: real)
    requires f != t && b > 0.0 && FloorDiv(s.resources.Get(f), b) > 0.0
    ensures var before := s.resources.Get(f);
            var batches := FloorDiv(before, b);
            var r := Trade(s, f, Some(t), b);
            && r.resources.Get(f) == before - batches * b
            && 0.0 <= r.resources.Get(f) < b
            && r.resources.Get(t) == s.resources.Get(t) + batches
            && (forall u :: u != f && u != t ==> r.resources.Get(u) == s.resources.Get(u))
  {
    var before := s.resources.Get(f);
    var batches := FloorDiv(before, b);
    BatchesMoved(s, f, t, b, batches);
  }

  /** `n > 0` batches of size `b` leave the source `n * b` lower and the target `n` higher. */
  lemma BatchesMoved(s: State, f: Tier, t: Tier, b: real, n: real)
    requires f != t && n > 0.0
    ensures var r := TradeBatches(s, f, Some(t), b, n);
            && r.resources.Get(f) == s.resources.Get(f) - n * b
            && r.resources.Get(t) == s.resources.Get(t) + n
            && (forall u :: u != f && u != t ==> r.resources.Get(u) == s.resources.Get(u))
  {
  }

  method ProcessAutoTrades(g: Game)
    modifies g
    ensures g.Snapshot() == AutoTraded(old(g.Snapshot()))
  {
    var keys := g.systems.autoTradeBatches.keys;
    ghost var s0 := g.Snapshot();
    var i := 0;
    while i < |keys|
      invariant 0 <= i <= |keys|
      invariant g.Snapshot() == AutoTradeAll(s0, keys[..i])
      invariant g.systems == s0.systems
    {
      assert keys[..i + 1][..i] == keys[..i];
      AutoTradeKeepsRest(s0, keys[..i + 1]);
      AutoTradeStep(g, keys[i]);
      i := i + 1;
    }
    assert keys[..i] == keys;
  }

  /** One iteration of the auto-trade loop, on the live store. */
  method AutoTradeStep(g: Game, key: string)
    modifies g
    ensures g.Snapshot() == AutoTradeOne(old(g.Snapshot()), key)
  {
    ghost var s := g.Snapshot();
    var parts := Split(key, "_to_");
    var from := ParseTier(parts[0]);
    var to := if |parts| > 1 then ParseTier(parts[1]) else None;
    var batchSize := 1.0;
    if key in g.systems.autoTradeBatches.values {
      batchSize := Or(g.systems.autoTradeBatches.values[key], 1.0);
    }
    if from.None? {
      return;
    }
    assert batchSize == TradeBatch(s, key);
    var batchesAvailable := FloorDiv(g.resources.Get(from.value), batchSize);
    assert AutoTradeOne(s, key) == TradeBatches(s, from.value, to, batchSize, batchesAvailable);
    TradeStep(g, from.value, to, batchSize, batchesAvailable);
  }

  /** The debit and credit of `available` batches, on the live store. */
  method TradeStep(g: Game, f: Tier, to: Option<Tier>, batchSize: real, available: real)
    modifies g
    ensures g.Snapshot() == TradeBatches(old(g.Snapshot()), f, to, batchSize, available)
  {
    if available <= 0.0 {
      return;
    }
    ghost var s := g.Snapshot();
    var debited := g.resources.Add(f, -(available * batchSize));
    g.resources := if to.Some? then debited.Add(to.value, available) else debited;
    assert g.Snapshot() == s.(resources := g.resources);
  }

  /** The static part of the multiplier: prestige, the byte cache and memory. */
  function BaseMultiplier(s: State): real {
    1.0 + s.meta.prestigeCurrency * 0.1
      + (if "byteCache" in s.upgrades.owned then 0.2 else 0.0)
      + s.meta.memory * 0.05
  }

  /** The passive hooks from index `i` on, each fired once in list order. */
  function FireFrom(s: State, i: nat, m: Math): (r: State)
    requires i <= |s.systems.passiveHooks|
    ensures r.systems.revealedTiers == s.systems.revealedTiers
    decreases |s.systems.passiveHooks| - i
  {
    if i == |s.systems.passiveHooks| then s
    else FireFrom(FireAt(s, i, m), i + 1, m)
  }

  /** Firing the hook at index `i` and storing its updated closure state back in the list. */
  function FireAt(s: State, i: nat, m: Math): (r: State)
    requires i < |s.systems.passiveHooks|
    ensures |r.systems.passiveHooks| == |s.systems.passiveHooks|
    ensures r.systems.revealedTiers == s.systems.revealedTiers
  {
    var fired := FireHook(s, s.systems.passiveHooks[i], m);
    fired.0.(systems := fired.0.systems.(passiveHooks := fired.0.systems.passiveHooks[i := fired.1]))
  }

  /** `recalculateGlobalMultiplier()`: rebuilt from scratch, then every hook in order. */
  function Recalculated(s: State, m: Math): State {
    FireFrom(s.(systems := s.systems.(globalMultiplier := BaseMultiplier(s))), 0, m)
  }

  /**
   * The multiplier does not accumulate across ticks: whatever it was, the
   * recalculation gives the same store, and with no hooks registered it is
   * exactly `1 + prestige/10 (+ 0.2 with byteCache) + memory/20`.
   */
  lemma MultiplierFromScratch(s: State, x: real, m: Math)
    ensures Recalculated(s.(systems := s.systems.(globalMultiplier := x)), m) == Recalculated(s, m)
    ensures s.systems.passiveHooks == [] ==>
              Recalculated(s, m).systems.globalMultiplier
              == 1.0 + s.meta.prestigeCurrency * 0.1 + (if "byteCache" in s.upgrades.owned then 0.2 else 0.0) + s.meta.memory * 0.05
  {
    var s' := s.(systems := s.systems.(globalMultiplier := x));
    assert s'.(systems := s'.systems.(globalMultiplier := BaseMultiplier(s'))) ==
           s.(systems := s.systems.(globalMultiplier := BaseMultiplier(s)));
  }

  /** Hooks that only add resources or prestige leave the rebuilt multiplier alone. */
  lemma {:induction false} AdditiveHooksKeepMultiplier(s: State, i: nat, m: Math)
    requires i <= |s.systems.passiveHooks|
    requires forall j :: i <= j < |s.systems.passiveHooks| ==> Additive(s.systems.passiveHooks[j])
    ensures FireFrom(s, i, m).systems.globalMultiplier == s.systems.globalMultiplier
    decreases |s.systems.passiveHooks| - i
  {
    if i < |s.systems.passiveHooks| {
      var s1 := FireAt(s, i, m);
      AdditiveKeepsMultiplier(s, s.systems.passiveHooks[i], m);
      AdditiveAdvance(s.systems.passiveHooks[i]);
      assert forall j :: i + 1 <= j < |s1.systems.passiveHooks| ==> s1.systems.passiveHooks[j] == s.systems.passiveHooks[j];
      AdditiveHooksKeepMultiplier(s1, i + 1, m);
    }
  }

  /** A hook that never touches the multiplier. */
  predicate Additive(h: Hook) {
    match h
    case ScalingBoostHook(_, _) => false
    case TimedHook(body, _) => Additive(body)
    case _ => true
  }

  lemma {:induction false} AdditiveKeepsMultiplier(s: State, h: Hook, m: Math)
    requires Additive(h)
    ensures FireHook(s, h, m).0.systems.globalMultiplier == s.systems.globalMultiplier
  {
    match h
    case TimedHook(body, remaining) =>
      if remaining > 0 {
        AdditiveKeepsMultiplier(s, body, m);
      }
    case _ =>
  }

  lemma {:induction false} AdditiveAdvance(h: Hook)
    requires Additive(h)
    ensures Additive(Advance(h))
  {
    match h
    case TimedHook(body, remaining) =>
      if remaining > 0 {
        AdditiveAdvance(body);
      }
    case _ =>
  }

  method RecalculateGlobalMultiplier(g: Game, m: Math)
    modifies g
    ensures g.Snapshot() == Recalculated(old(g.Snapshot()), m)
  {
    var base := 1.0 + g.meta.prestigeCurrency * 0.1;
    if "byteCache" in g.upgrades.owned {
      base := base + 0.2;
    }
    base := base + g.meta.memory * 0.05;
    g.systems := g.systems.(globalMultiplier := base);
    var i := 0;
    ghost var s0 := g.Snapshot();
    while i < |g.systems.passiveHooks|
      invariant i <= |g.systems.passiveHooks|
      invariant FireFrom(g.Snapshot(), i, m) == FireFrom(s0, 0, m)
      decreases |g.systems.passiveHooks| - i
    {
      FireHookAt(g, i, m);
      i := i + 1;
    }
  }

  /** Runs the hook at index `i` in place, as `forEach(fn => fn())` does for one element. */
  method FireHookAt(g: Game, i: nat, m: Math)
    requires i < |g.systems.passiveHooks|
    modifies g
    ensures g.Snapshot() == FireAt(old(g.Snapshot()), i, m)
  {
    var fired := FireHook(g.Snapshot(), g.systems.passiveHooks[i], m);
    g.resources := fired.0.resources;
    g.generation := fired.0.generation;
    g.meta := fired.0.meta;
    g.systems := fired.0.systems.(passiveHooks := g.systems.passiveHooks[i := fired.1]);
  }

  /** `cycleThreshold(n)`: `1000 * 1.5^n`. */
  function CycleThreshold(n: nat): real {
    1000.0 * Pow(1.5, n)
  }

  /** Every step of the prestige threshold series after the first adds at least 1500. */
  lemma CycleThresholdAtLeast(n: nat)
    requires n >= 1
    ensures CycleThreshold(n) >= 1500.0
  {
    PowAtLeastOne(1.5, n - 1);
    assert Pow(1.5, n) == 1.5 * Pow(1.5, n - 1);
  }

  /** The four passes of `gameTick` before the program countdown, in their fixed order. */
  function Processed(s: State, m: Math): State {
    AutoTraded(AutoConverted(AutoGenerated(Recalculated(s, m)), m))
  }

  /** The world once the four passes and the program countdown have run. */
  function CountedDown(w: ProgramExecutor.World, m: Math): ProgramExecutor.World {
    ProgramExecutor.TickAll(ProgramExecutor.World(Processed(w.state, m), w.running))
  }

  /**
   * `gameTick()`: rebuild the multiplier (and run the hooks), generate,
   * auto-convert, auto-trade, count the running programs down, then
   * `updateTiersIfDirty()`: one reveal pass over the resulting store when
   * a tier update is `pending`.
   */
  function Ticked(w: ProgramExecutor.World, pending: bool, m: Math): ProgramExecutor.World {
    var c := CountedDown(w, m);
    if pending then c.(state := UiRenderer.Rendered(c.state)) else c
  }

  /**
   * The multiplier left over from the previous tick never matters: the tick
   * rebuilds it before generation reads it.
   */
  lemma TickForgetsMultiplier(w: ProgramExecutor.World, pending: bool, x: real, m: Math)
    ensures Ticked(w.(state := w.state.(systems := w.state.systems.(globalMultiplier := x))), pending, m) == Ticked(w, pending, m)
  {
    MultiplierFromScratch(w.state, x, m);
  }

  /**
   * Neither the program countdown nor the reveal pass moves a balance: the
   * balances a tick ends with are those after the auto-trade pass.
   */
  lemma TickEndsWithTradedBalances(w: ProgramExecutor.World, pending: bool, m: Math)
    ensures Ticked(w, pending, m).state.resources == Processed(w.state, m).resources
    ensures Ticked(w, pending, m).state.meta.prestigeCurrency == Processed(w.state, m).meta.prestigeCurrency
  {
    ProgramExecutor.TickKeepsBalances(ProgramExecutor.World(Processed(w.state, m), w.running), w.running.keys);
  }

  /** The four passes never write `revealedTiers`. */
  lemma ProcessedKeepsRevealed(s: State, m: Math)
    ensures Processed(s, m).systems.revealedTiers == s.systems.revealedTiers
  {
    var c := AutoGenerated(Recalculated(s, m));
    AutoConvertKeepsSystems(c, c.systems.autoConvertToggles.keys, m);
    var d := AutoConverted(c, m);
    AutoTradeKeepsRest(d, d.systems.autoTradeBatches.keys);
  }

  /**
   * A tick reveals tier `a` exactly when it was revealed before the tick, or
   * a tier update was pending and the balances after the countdown pass the
   * reveal test; without a pending update nothing is revealed.
   */
  lemma TickRevealIff(w: ProgramExecutor.World, pending: bool, m: Math, a: nat)
    requires a < 8
    ensures AllTiers()[a] in Ticked(w, pending, m).state.systems.revealedTiers
            <==> AllTiers()[a] in w.state.systems.revealedTiers || (pending && UiRenderer.Reveals(CountedDown(w, m).state, a))
    ensures !pending ==> Ticked(w, pending, m).state.systems.revealedTiers == w.state.systems.revealedTiers
  {
    ProcessedKeepsRevealed(w.state, m);
    ProgramExecutor.TickKeepsBalances(ProgramExecutor.World(Processed(w.state, m), w.running), w.running.keys);
    UiRenderer.RevealIff(CountedDown(w, m).state, a);
  }

  /**
   * A new game holding 100 bits: the first tick (the flag starts pending)
   * reveals the nibble tier and nothing else.
   */
  lemma FirstTickRevealsNibble(m: Math)
    ensures var s := Initial().(resources := Initial().resources.Set(Bit, 100.0));
      Ticked(ProgramExecutor.World(s, Empty()), true, m).state.systems.revealedTiers == {Bit, Nibble}
  {
    var s := Initial().(resources := Initial().resources.Set(Bit, 100.0));
    var w := ProgramExecutor.World(s, Empty());
    var c := CountedDown(w, m).state;
    assert c.resources == s.resources && c.meta == s.meta;
    UiRenderer.NothingBeyondNibble(c);
  }

  /** `gameTick()` on the live store; `updateDisplay()` redraws the DOM only and is left out. */
  method GameTick(g: Game, x: ProgramExecutor.Executor, ui: UiRenderer.Renderer, m: Math)
    requires x.running.Valid()
    modifies g, x, ui
    ensures ProgramExecutor.World(g.Snapshot(), x.running) == Ticked(old(ProgramExecutor.World(g.Snapshot(), x.running)), old(ui.pending), m)
    ensures x.running.Valid()
    ensures !ui.pending
  {
    RecalculateGlobalMultiplier(g, m);
    ProcessAutoGeneration(g);
    ProcessAutoConversions(g, m);
    ProcessAutoTrades(g);
    ProgramExecutor.TickPrograms(g, x);
    ui.UpdateTiersIfDirty(g);
  }
}
