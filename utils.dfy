/**
 * Resource tiers, their shared weights and exchange rates, and `capitalize`
 * (scripts/core/utils.js).
 */
module Utils {
  import opened Wrappers

  /** The eight resource tiers, in ascending order. */
  datatype Tier = Bit | Nibble | Byte | Kilobyte | Megabyte | Gigabyte | Terabyte | Petabyte

  function Index(t: Tier): nat {
    match t
    case Bit => 0
    case Nibble => 1
    case Byte => 2
    case Kilobyte => 3
    case Megabyte => 4
    case Gigabyte => 5
    case Terabyte => 6
    case Petabyte => 7
  }

  /** The tiers in the key order of the resource record and of the weight table. */
  function AllTiers(): (ts: seq<Tier>)
    ensures |ts| == 8
    ensures forall i :: 0 <= i < 8 ==> Index(ts[i]) == i
  {
    [Bit, Nibble, Byte, Kilobyte, Megabyte, Gigabyte, Terabyte, Petabyte]
  }

  /** Every tier is listed, at the position of its index. */
  lemma AllTiersComplete(t: Tier)
    ensures AllTiers()[Index(t)] == t
  {
  }

  /** The resource key of a tier. */
  function TierName(t: Tier): string {
    match t
    case Bit => "bit"
    case Nibble => "nibble"
    case Byte => "byte"
    case Kilobyte => "kilobyte"
    case Megabyte => "megabyte"
    case Gigabyte => "gigabyte"
    case Terabyte => "terabyte"
    case Petabyte => "petabyte"
  }

  /** The tier a resource key names, if any: `key in gameState.resources`. */
  function ParseTier(s: string): (r: Option<Tier>)
    ensures r.Some? ==> TierName(r.value) == s
    ensures r.None? ==> forall t :: TierName(t) != s
  {
    if s == "bit" then Some(Bit)
    else if s == "nibble" then Some(Nibble)
    else if s == "byte" then Some(Byte)
    else if s == "kilobyte" then Some(Kilobyte)
    else if s == "megabyte" then Some(Megabyte)
    else if s == "gigabyte" then Some(Gigabyte)
    else if s == "terabyte" then Some(Terabyte)
    else if s == "petabyte" then Some(Petabyte)
    else None
  }

  /** Every tier's key parses back to that tier. */
  lemma ParseTierName(t: Tier)
    ensures ParseTier(TierName(t)) == Some(t)
  {
    var r := ParseTier(TierName(t));
    assert r.Some?;
    assert TierName(r.value) == TierName(t);
  }

  /** No tier key contains an underscore, so keys built from tier keys split cleanly. */
  lemma NoUnderscore(t: Tier)
    ensures '_' !in TierName(t)
  {
  }

  /** `RESOURCE_WEIGHTS`: the bit-equivalent value of one unit of each tier. */
  function Weight(t: Tier): (w: real)
    ensures w >= 1.0
  {
    match t
    case Bit => 1.0
    case Nibble => 4.0
    case Byte => 8.0
    case Kilobyte => 8.0 * 1024.0
    case Megabyte => 8.0 * 1024.0 * 1024.0
    case Gigabyte => 8.0 * 1024.0 * 1024.0 * 1024.0
    case Terabyte => 8.0 * 1024.0 * 1024.0 * 1024.0 * 1024.0
    case Petabyte => 8.0 * 1024.0 * 1024.0 * 1024.0 * 1024.0 * 1024.0
  }

  /** Weights strictly increase along the tier order. */
  lemma WeightsIncrease(a: Tier, b: Tier)
    requires Index(a) < Index(b)
    ensures Weight(a) < Weight(b)
  {
  }

  /** Units of tier `a` that make one unit of tier `b`: `weight(b) / weight(a)`. */
  function TierRate(a: Tier, b: Tier): (r: real)
    ensures r > 0.0
  {
    Weight(b) / Weight(a)
  }

  /** One unit of `b` is worth `TierRate(a, b)` units of `a`. */
  lemma RateTimesWeight(a: Tier, b: Tier)
    ensures TierRate(a, b) * Weight(a) == Weight(b)
  {
  }

  /**
   * `conversionRate(from, to)`: units of `from` that make one unit of `to`,
   * or `null` when either key is not a tier.
   */
  function ConversionRate(from: string, to: string): (r: Option<real>)
    ensures r.Some? <==> ParseTier(from).Some? && ParseTier(to).Some?
    ensures r.Some? ==> r.value == TierRate(ParseTier(from).value, ParseTier(to).value)
  {
    match (ParseTier(from), ParseTier(to))
    case (Some(a), Some(b)) => Some(TierRate(a, b))
    case _ => None
  }

  /**
   * Rates in opposite directions are reciprocal. `ConversionRate` is
   * `TierRate` on every pair of known keys, so this holds for the keys too.
   */
  lemma RateReciprocal(a: Tier, b: Tier)
    ensures TierRate(a, b) * TierRate(b, a) == 1.0
  {
    Reciprocal(Weight(a), Weight(b), TierRate(a, b), TierRate(b, a));
  }

  /** The rate between two tiers named by their keys. */
  lemma RateOf(f: Tier, t: Tier)
    ensures ParseTier(TierName(f)) == Some(f) && ParseTier(TierName(t)) == Some(t)
    ensures ConversionRate(TierName(f), TierName(t)) == Some(TierRate(f, t))
  {
    ParseTierName(f);
    ParseTierName(t);
  }

  lemma Reciprocal(x: real, y: real, p: real, q: real)
    requires x > 0.0 && y > 0.0 && p == y / x && q == x / y
    ensures p * q == 1.0
  {
    var pq, xy := p * q, x * y;
    assert p * x == y && q * y == x;
    assert pq * xy == (p * x) * (q * y);
    assert (pq - 1.0) * xy == 0.0;
    assert xy > 0.0;
  }

  /** Converting a tier into itself costs one unit per unit. */
  lemma RateToSelf(a: Tier)
    ensures ConversionRate(TierName(a), TierName(a)) == Some(1.0)
  {
    ParseTierName(a);
  }

  /** The step to the next tier costs a whole number of units: 4, 2, then 1024. */
  lemma AdjacentRates()
    ensures ConversionRate("bit", "nibble") == Some(4.0)
    ensures ConversionRate("nibble", "byte") == Some(2.0)
    ensures ConversionRate("byte", "kilobyte") == Some(1024.0)
    ensures ConversionRate("kilobyte", "megabyte") == Some(1024.0)
    ensures ConversionRate("megabyte", "gigabyte") == Some(1024.0)
    ensures ConversionRate("gigabyte", "terabyte") == Some(1024.0)
    ensures ConversionRate("terabyte", "petabyte") == Some(1024.0)
  {
  }

  /** `char.toUpperCase()` on ASCII letters. */
  function ToUpper(c: char): char {
    if 'a' <= c <= 'z' then (c as int - 32) as char else c
  }

  /** `capitalize(word)`: the first character upper-cased, the rest unchanged. */
  function Capitalize(word: string): (r: string)
    ensures word == [] ==> r == []
    ensures word != [] ==> |r| == |word| && r[0] == ToUpper(word[0]) && r[1..] == word[1..]
  {
    if |word| == 0 then "" else [ToUpper(word[0])] + word[1..]
  }
}
