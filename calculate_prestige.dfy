/**
 * How many cycles a recompile would award
 * (scripts/prestige/calculatePrestige.js): the resources weighted by this
 * file's own table, the number of thresholds of the rising series
 * 1000, 2500, 4750, ... that the total clears, and an optional byte bonus.
 */
module CalculatePrestige {
  import opened Utils
  import opened RealMath
  import opened GameState
  import opened Engine

  /**
   * The weights `calculatePrestige` uses: powers of four, not the
   * `RESOURCE_WEIGHTS` the engine converts with.
   */
  function PrestigeWeight(t: Tier): (w: real)
    ensures w >= 1.0
  {
    match t
    case Bit => 1.0
    case Nibble => 4.0
    case Byte => 16.0
    case Kilobyte => 64.0
    case Megabyte => 256.0
    case Gigabyte => 1024.0
    case Terabyte => 4096.0
    case Petabyte => 16384.0
  }

  /** Each weight is four times the one below; from byte up they differ from the exchange weights. */
  lemma PrestigeWeights(t: Tier)
    ensures PrestigeWeight(t) == Pow(4.0, Index(t))
    ensures Index(t) >= 2 ==> PrestigeWeight(t) != Weight(t)
  {
    assert Pow(4.0, 2) == 16.0 && Pow(4.0, 3) == 64.0 && Pow(4.0, 4) == 256.0;
    assert Pow(4.0, 5) == 1024.0 && Pow(4.0, 6) == 4096.0 && Pow(4.0, 7) == 16384.0;
  }

  /** The weighted sum over the first `i` tiers of the weight table, in its order. */
  function PartialTotal(r: Ledger, i: nat): real
    requires i <= 8
  {
    if i == 0 then 0.0
    else PartialTotal(r, i - 1) + r.Get(AllTiers()[i - 1]) * PrestigeWeight(AllTiers()[i - 1])
  }

  /** `total`: every balance (0 when absent) times its weight. */
  function WeightedTotal(r: Ledger): real {
    PartialTotal(r, 8)
  }

  /** With no negative balance the total is non-negative, and it grows with any balance. */
  lemma {:induction false} PartialTotalMonotone(r: Ledger, q: Ledger, i: nat)
    requires i <= 8
    requires forall t :: r.Get(t) <= q.Get(t)
    ensures PartialTotal(r, i) <= PartialTotal(q, i)
  {
    if i > 0 {
      PartialTotalMonotone(r, q, i - 1);
      var t := AllTiers()[i - 1];
      ScaleLe(r.Get(t), q.Get(t), PrestigeWeight(t));
    }
  }

  /** Exactly 1000 bits and nothing else weigh 1000. */
  lemma {:induction false} OnlyBitsTotal(r: Ledger, i: nat)
    requires 0 < i <= 8
    requires forall t :: t != Bit ==> r.Get(t) == 0.0
    ensures PartialTotal(r, i) == r.Get(Bit)
  {
    if i > 1 {
      OnlyBitsTotal(r, i - 1);
      assert AllTiers()[i - 1] != Bit by { assert Index(AllTiers()[i - 1]) == i - 1; }
    }
  }

  /**
   * The `threshold` variable after `k` cycles have been counted: 1000, then
   * `cycleThreshold(k)` added for each cycle.
   */
  function SeriesThreshold(k: nat): real {
    if k == 0 then 1000.0 else SeriesThreshold(k - 1) + CycleThreshold(k)
  }

  /** Each step of the series adds at least 1500, so every threshold is at least 1000. */
  lemma SeriesStep(k: nat)
    ensures SeriesThreshold(k + 1) >= SeriesThreshold(k) + 1500.0
  {
    CycleThresholdAtLeast(k + 1);
  }

  lemma {:induction false} SeriesIncreasing(j: nat, k: nat)
    requires j < k
    ensures SeriesThreshold(j) < SeriesThreshold(k)
    decreases k - j
  {
    SeriesStep(k - 1);
    if j < k - 1 {
      SeriesIncreasing(j, k - 1);
    }
  }

  /**
   * The `while (total >= threshold)` loop from `earnedCycles = k`: it stops
   * because the threshold rises by at least 1500 on every pass.
   */
  function CountFrom(total: real, k: nat): nat
    decreases (total - SeriesThreshold(k)).Floor + 1
  {
    if total >= SeriesThreshold(k) then
      SeriesStep(k);
      CountFrom(total, k + 1)
    else k
  }

  /** `earnedCycles`. */
  function Earned(total: real): nat {
    CountFrom(total, 0)
  }

  /** The loop stops at the first threshold above the total. */
  lemma {:induction false} CountFromBounds(total: real, k: nat)
    requires k == 0 || SeriesThreshold(k - 1) <= total
    ensures var n := CountFrom(total, k);
      && n >= k
      && (n == 0 || SeriesThreshold(n - 1) <= total)
      && total < SeriesThreshold(n)
    decreases (total - SeriesThreshold(k)).Floor + 1
  {
    if total >= SeriesThreshold(k) {
      SeriesStep(k);
      CountFromBounds(total, k + 1);
    }
  }

  /**
   * `earnedCycles` is the number of thresholds the total clears: the
   * thresholds below it are passed and the next one is not.
   */
  lemma EarnedClears(total: real)
    ensures var n := Earned(total);
      (n == 0 || SeriesThreshold(n - 1) <= total) && total < SeriesThreshold(n)
  {
    CountFromBounds(total, 0);
  }

  /** A larger total never earns fewer cycles. */
  lemma EarnedMonotone(a: real, b: real)
    requires a <= b
    ensures Earned(a) <= Earned(b)
  {
    EarnedClears(a);
    EarnedClears(b);
    if Earned(b) < Earned(a) {
      if Earned(b) < Earned(a) - 1 {
        SeriesIncreasing(Earned(b), Earned(a) - 1);
      }
    }
  }

  /** The `k`-th threshold is at least `1000 + 1500 * k`. */
  lemma {:induction false} SeriesAtLeast(k: nat)
    ensures SeriesThreshold(k) >= 1000.0 + 1500.0 * k as real
  {
    if k > 0 {
      SeriesAtLeast(k - 1);
      SeriesStep(k - 1);
    }
  }

  /** Below 1000 nothing is earned; exactly 1000 earns one cycle. */
  lemma EarnedFirstThreshold(total: real)
    ensures total < 1000.0 ==> Earned(total) == 0
    ensures total == 1000.0 ==> Earned(total) == 1
  {
    EarnedClears(total);
    forall k: nat ensures SeriesThreshold(k) >= 1000.0 + 1500.0 * k as real {
      SeriesAtLeast(k);
    }
  }

  /**
   * `calculatePrestige()`: the cycles earned, plus `floor(log2(byte + 1))`
   * when `byteBonusEnabled` is set.
   */
  function Prestige(s: State, m: Math): int {
    Earned(WeightedTotal(s.resources))
      + (if s.generation.byteBonusEnabled then m.log2(s.resources.Get(Byte) + 1.0).Floor else 0)
  }

  /**
   * Without the byte bonus the result is the cycle count of the weighted
   * total; exactly 1000 bits and nothing else earn one cycle; a store
   * holding at least as much of every tier earns at least as many.
   */
  lemma PrestigeFacts(s: State, q: State, m: Math)
    requires !s.generation.byteBonusEnabled && !q.generation.byteBonusEnabled
    ensures Prestige(s, m) == Earned(WeightedTotal(s.resources))
    ensures (forall t :: s.resources.Get(t) <= q.resources.Get(t)) ==> Prestige(s, m) <= Prestige(q, m)
    ensures (s.resources.Get(Bit) == 1000.0 && forall t :: t != Bit ==> s.resources.Get(t) == 0.0)
              ==> Prestige(s, m) == 1
  {
    if forall t :: s.resources.Get(t) <= q.resources.Get(t) {
      PartialTotalMonotone(s.resources, q.resources, 8);
      EarnedMonotone(WeightedTotal(s.resources), WeightedTotal(q.resources));
    }
    if s.resources.Get(Bit) == 1000.0 && forall t :: t != Bit ==> s.resources.Get(t) == 0.0 {
      OnlyBitsTotal(s.resources, 8);
      EarnedFirstThreshold(1000.0);
    }
  }

  /** With the bonus enabled and a non-negative byte balance, the bonus never lowers the count. */
  lemma ByteBonusNonNegative(s: State, m: Math)
    requires Lawful(m) && s.generation.byteBonusEnabled && s.resources.Get(Byte) >= 0.0
    ensures Prestige(s, m) >= Earned(WeightedTotal(s.resources))
  {
    assert m.log2(s.resources.Get(Byte) + 1.0) >= 0.0;
  }

  /** `calculatePrestige` on the live store: two loops over locals; the store is only read. */
  method CalculatePrestige(g: Game, m: Math) returns (earned: int)
    ensures earned == Prestige(g.Snapshot(), m)
  {
    var total := 0.0;
    var i := 0;
    while i < 8
      invariant 0 <= i <= 8
      invariant total == PartialTotal(g.resources, i)
    {
      var t := AllTiers()[i];
      total := total + g.resources.Get(t) * PrestigeWeight(t);
      i := i + 1;
    }
    var cycles: nat := 0;
    var threshold := 1000.0;
    while total >= threshold
      invariant threshold == SeriesThreshold(cycles)
      invariant CountFrom(total, cycles) == Earned(total)
      decreases (total - threshold).Floor + 1
    {
      SeriesStep(cycles);
      cycles := cycles + 1;
      threshold := threshold + CycleThreshold(cycles);
    }
    var byteBonus := 0;
    if g.generation.byteBonusEnabled {
      byteBonus := m.log2(g.resources.Get(Byte) + 1.0).Floor;
    }
    earned := cycles + byteBonus;
  }
}
