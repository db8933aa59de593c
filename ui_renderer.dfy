/**
 * The rules behind the tier view (scripts/ui/uiRenderer.js): which tiers the
 * render pass reveals, which upgrades a tier lists, and what the
 * auto-convert toggle and its "max" checkbox write. The DOM the pass builds
 * is not modelled; a listed upgrade is a value in a sequence.
 */
module UiRenderer {
  import opened Wrappers
  import opened Utils
  import opened Text
  import opened OrderedMaps
  import opened UpgradeEffects
  import opened GameState
  import opened UpgradeDefinitions
  import opened TierSchemas
  import opened TierData

  // ------------------------------------------------------------------ reveal

  /** `tier.threshold` of tier `a` in `tierData`. */
  function Threshold(a: nat): real
    requires a < 8
  {
    Schemas()[a].threshold
  }

  /** The kilobyte tier is neither revealed nor drawn while `prestigeCurrency` is below 50. */
  predicate SoftLocked(s: State, a: nat)
    requires a < 8
  {
    AllTiers()[a] == Kilobyte && s.meta.prestigeCurrency < 50.0
  }

  /**
   * Tier `a` is revealed by the pass: it has a lower tier, is not
   * soft-locked, and the lower tier's balance reaches its threshold.
   */
  predicate Reveals(s: State, a: nat)
    requires a < 8
  {
    0 < a && !SoftLocked(s, a) && s.resources.Get(AllTiers()[a - 1]) >= Threshold(a)
  }

  /** The tiers among the first `n` of the order that the pass reveals. */
  function RevealedBelow(s: State, n: nat): set<Tier>
    requires n <= 8
  {
    set a: nat | a < n && Reveals(s, a) :: AllTiers()[a]
  }

  /** The revealed tiers after one pass of `renderTiers` (or `buildTierLayout`). */
  function RevealedAfter(s: State): set<Tier> {
    s.systems.revealedTiers + RevealedBelow(s, 8)
  }

  /** The store after one pass of `renderTiers`: only `revealedTiers` changes. */
  function Rendered(s: State): State {
    s.(systems := s.systems.(revealedTiers := RevealedAfter(s)))
  }

  /** One more tier of the pass adds that tier exactly when it is revealed. */
  lemma RevealedBelowStep(s: State, n: nat)
    requires n < 8
    ensures RevealedBelow(s, n + 1) == RevealedBelow(s, n) + (if Reveals(s, n) then {AllTiers()[n]} else {})
  {
  }

  /** The tiers the pass draws: revealed, and not soft-locked. */
  function Shown(s: State): set<Tier> {
    set a: nat | a < 8 && AllTiers()[a] in RevealedAfter(s) && !SoftLocked(s, a) :: AllTiers()[a]
  }

  /**
   * A tier is revealed after the pass exactly when it was before, or it
   * passes the threshold test; entries are only ever added, and a second
   * pass over the same balances adds nothing.
   */
  lemma RevealIff(s: State, a: nat)
    requires a < 8
    ensures AllTiers()[a] in RevealedAfter(s) <==> AllTiers()[a] in s.systems.revealedTiers || Reveals(s, a)
    ensures s.systems.revealedTiers <= RevealedAfter(s)
    ensures RevealedAfter(s.(systems := s.systems.(revealedTiers := RevealedAfter(s)))) == RevealedAfter(s)
  {
    forall b: nat | b < 8 && AllTiers()[b] == AllTiers()[a] ensures b == a {
      AllTiersDistinct(a, b);
    }
  }

  lemma AllTiersDistinct(a: nat, b: nat)
    requires a < 8 && b < 8 && AllTiers()[a] == AllTiers()[b]
    ensures a == b
  {
    assert Index(AllTiers()[a]) == a && Index(AllTiers()[b]) == b;
  }

  /**
   * With 100 bits and nothing else (the store a new game reaches after its
   * first clicks), the pass adds the nibble tier and nothing more.
   */
  lemma NothingBeyondNibble(s: State)
    requires s.systems.revealedTiers == {Bit}
    requires s.resources.Get(Bit) == 100.0
    requires forall t :: t != Bit ==> s.resources.Get(t) == 0.0
    ensures RevealedAfter(s) == {Bit, Nibble}
  {
    SchemaOrder();
    assert Reveals(s, 1);
    forall a: nat | 2 <= a < 8 ensures !Reveals(s, a) {
      assert Threshold(a) >= Threshold(1);
      assert AllTiers()[a - 1] != Bit;
    }
  }

  /** With every balance at zero the pass reveals nothing new: every threshold above bit is positive. */
  lemma NothingRevealedAtZero(s: State)
    requires forall t :: s.resources.Get(t) == 0.0
    ensures RevealedAfter(s) == s.systems.revealedTiers
  {
    SchemaOrder();
    forall a: nat | a < 8 ensures !Reveals(s, a) {
      if 0 < a {
        assert Threshold(a) >= Threshold(1);
      }
    }
  }

  /** The pass never reveals bit, and never reveals or draws kilobyte below 50 cycles. */
  lemma SoftLockHolds(s: State)
    ensures Bit in RevealedAfter(s) <==> Bit in s.systems.revealedTiers
    ensures s.meta.prestigeCurrency < 50.0 ==>
      (Kilobyte in RevealedAfter(s) <==> Kilobyte in s.systems.revealedTiers) && Kilobyte !in Shown(s)
  {
    forall a: nat | a < 8 && AllTiers()[a] == Bit ensures a == 0 {
      AllTiersDistinct(a, 0);
    }
    forall a: nat | a < 8 && AllTiers()[a] == Kilobyte ensures a == 3 {
      AllTiersDistinct(a, 3);
    }
  }

  /**
   * More of the lower balances, or more cycles, never reveal less: the
   * pass is monotone in the balances, the currency and the revealed set.
   */
  lemma RevealMonotone(s: State, t: State)
    requires s.systems.revealedTiers <= t.systems.revealedTiers
    requires forall x :: s.resources.Get(x) <= t.resources.Get(x)
    requires s.meta.prestigeCurrency <= t.meta.prestigeCurrency
    ensures RevealedAfter(s) <= RevealedAfter(t)
  {
    forall a: nat | a < 8 && Reveals(s, a) ensures AllTiers()[a] in RevealedAfter(t) {
      assert Reveals(t, a);
    }
  }

  /** Tier `a` of `tierData` has the threshold and the key this module reads. */
  lemma TierThreshold(a: nat)
    requires a < 8
    ensures |Tiers()| == 8 && Tiers()[a].threshold == Threshold(a)
    ensures Tiers()[a].key == TierName(AllTiers()[a])
  {
    SchemaOrder();
  }

  /** The `tierData.forEach` of `renderTiers`, setting `revealedTiers` entries in place. */
  method RevealTiers(g: Game)
    modifies g
    ensures g.Snapshot() == Rendered(old(g.Snapshot()))
  {
    ghost var s := g.Snapshot();
    var a := 0;
    while a < 8
      invariant 0 <= a <= 8
      invariant g.systems.revealedTiers == s.systems.revealedTiers + RevealedBelow(s, a)
      invariant g.Snapshot() == s.(systems := s.systems.(revealedTiers := g.systems.revealedTiers))
    {
      var t := AllTiers()[a];
      ghost var before := g.systems.revealedTiers;
      if !(t == Kilobyte && g.meta.prestigeCurrency < 50.0) {
        if a > 0 && t !in g.systems.revealedTiers && g.resources.Get(AllTiers()[a - 1]) >= Threshold(a) {
          g.systems := g.systems.(revealedTiers := g.systems.revealedTiers + {t});
        }
      }
      assert g.systems.revealedTiers == before + (if Reveals(s, a) then {t} else {});
      RevealedBelowStep(s, a);
      a := a + 1;
    }
  }

  /** The module's `tierUpdatePending` flag. */
  class Renderer {
    var pending: bool

    /** The flag starts set, so the first tick draws the tiers. */
    constructor ()
      ensures pending
    {
      pending := true;
    }

    /** `requestTierUpdate()`. */
    method RequestTierUpdate()
      modifies this
      ensures pending
    {
      pending := true;
    }

    /** `updateTiersIfDirty()`: one render pass when requested, then the flag is cleared. */
    method UpdateTiersIfDirty(g: Game)
      modifies this, g
      ensures !pending
      ensures g.Snapshot() == if old(pending) then Rendered(old(g.Snapshot())) else old(g.Snapshot())
    {
      if pending {
        RevealTiers(g);
        pending := false;
      }
    }
  }

  // ----------------------------------------------------------------- listing

  /** `upg.key.endsWith("AutoMax")`. */
  predicate IsAutoMax(key: string) {
    EndsWith(key, "AutoMax")
  }

  /** `/Combiner|Assembler|Synthesizer|Compiler|writer/.test(key)`. */
  predicate IsConverter(key: string) {
    Contains(key, "Combiner") || Contains(key, "Assembler") || Contains(key, "Synthesizer")
    || Contains(key, "Compiler") || Contains(key, "writer")
  }

  /** `tier.upgrades.some(...)`: a converter of the tier is owned. */
  predicate HasBase(owned: set<string>, es: seq<Option<Upgrade>>) {
    exists j :: 0 <= j < |es| && es[j].Some? && IsConverter(es[j].value.key) && es[j].value.key in owned
  }

  /** Whether `renderUpgrades` draws entry `u` of a tier with entries `es`. */
  predicate Offered(owned: set<string>, es: seq<Option<Upgrade>>, u: Upgrade) {
    (!IsAutoMax(u.key) || HasBase(owned, es)) && u.key !in owned
  }

  /** The upgrades `renderUpgrades` draws, in list order. */
  function Listing(owned: set<string>, es: seq<Option<Upgrade>>, from: nat): (r: seq<Upgrade>)
    requires from <= |es|
    decreases |es| - from
  {
    if from == |es| then []
    else
      var rest := Listing(owned, es, from + 1);
      match es[from]
      case None => rest
      case Some(u) => if Offered(owned, es, u) then [u] + rest else rest
  }

  /**
   * Exactly the entries that are not owned are listed, except that an
   * AutoMax entry waits for an owned converter of its tier; the list keeps
   * the tier's order.
   */
  lemma {:induction false} ListingIff(owned: set<string>, es: seq<Option<Upgrade>>, from: nat, u: Upgrade)
    requires from <= |es|
    decreases |es| - from
    ensures u in Listing(owned, es, from) <==>
      (exists j :: from <= j < |es| && es[j] == Some(u)) && Offered(owned, es, u)
  {
    if from < |es| {
      ListingIff(owned, es, from + 1, u);
      if es[from] == Some(u) {
        assert exists j :: from <= j < |es| && es[j] == Some(u);
      }
      if exists j :: from <= j < |es| && es[j] == Some(u) {
        var j :| from <= j < |es| && es[j] == Some(u);
        if j != from {
          assert exists j :: from + 1 <= j < |es| && es[j] == Some(u);
        }
      }
    }
  }

  /** After a purchase the bought upgrade is no longer listed, and nothing newly listed is owned. */
  lemma PurchasedNotListed(owned: set<string>, es: seq<Option<Upgrade>>, u: Upgrade)
    ensures u.key in owned ==> u !in Listing(owned, es, 0)
    ensures u !in Listing(owned + {u.key}, es, 0)
  {
    ListingIff(owned, es, 0, u);
    ListingIff(owned + {u.key}, es, 0, u);
  }

  /** The `forEach` of `renderUpgrades`, appending each drawn upgrade in turn. */
  method RenderUpgrades(g: Game, es: seq<Option<Upgrade>>) returns (listed: seq<Upgrade>)
    ensures listed == Listing(g.upgrades.owned, es, 0)
  {
    var owned := g.upgrades.owned;
    var hasBase := FindBase(owned, es);
    listed := [];
    var i := |es|;
    while i > 0
      invariant 0 <= i <= |es|
      invariant listed == Listing(owned, es, i)
    {
      i := i - 1;
      match es[i]
      case None =>
      case Some(u) =>
        if (!IsAutoMax(u.key) || hasBase) && u.key !in owned {
          listed := [u] + listed;
        }
    }
  }

  /** `tier.upgrades.some(...)` as a search loop. */
  method FindBase(owned: set<string>, es: seq<Option<Upgrade>>) returns (found: bool)
    ensures found <==> HasBase(owned, es)
  {
    var j := 0;
    while j < |es|
      invariant 0 <= j <= |es|
      invariant forall k :: 0 <= k < j ==> !(es[k].Some? && IsConverter(es[k].value.key) && es[k].value.key in owned)
    {
      if es[j].Some? && IsConverter(es[j].value.key) && es[j].value.key in owned {
        return true;
      }
      j := j + 1;
    }
    return false;
  }

  // ---------------------------------------------------------------- controls

  /** The controls `renderConversions` draws for tier `a`, converting from the tier below. */
  datatype Controls = Controls(convertMax: bool, toggle: bool, maxCheckbox: bool)

  function ControlsFor(s: State, a: nat): Option<Controls>
    requires a < 8
  {
    if a == 0 then None
    else
      var key := ConvertKey(AllTiers()[a - 1], AllTiers()[a]);
      var y := s.systems;
      var toggle := key in y.autoConvertToggles.values;
      Some(Controls(key in y.convertMaxUnlocked && y.convertMaxUnlocked[key],
                    toggle,
                    toggle && key in y.autoConvertMaxUnlocked && y.autoConvertMaxUnlocked[key]))
  }

  /** Bit has no conversion controls, and the "max" checkbox only appears beside the toggle. */
  lemma CheckboxNeedsToggle(s: State, a: nat)
    requires a < 8
    ensures ControlsFor(s, a).None? <==> a == 0
    ensures ControlsFor(s, a).Some? && ControlsFor(s, a).value.maxCheckbox ==> ControlsFor(s, a).value.toggle
  {
  }

  /** The toggle button's handler: `toggles[key] = !toggles[key]`. */
  function Flipped(s: State, key: string): State {
    var t := s.systems.autoConvertToggles;
    s.(systems := s.systems.(autoConvertToggles := t.Put(key, !(t.Get(key) == Some(true)))))
  }

  /** The checkbox handler: `toggles[key + "_max"] = checked`. */
  function MaxSet(s: State, key: string, checked: bool): State {
    var t := s.systems.autoConvertToggles;
    s.(systems := s.systems.(autoConvertToggles := t.Put(key + "_max", checked)))
  }

  /**
   * Flipping changes only the clicked toggle, which ends opposite to how
   * it was shown; flipping twice restores a toggle that was present.
   */
  lemma FlipOnlyKey(s: State, key: string)
    ensures var r := Flipped(s, key);
      && r.systems.autoConvertToggles.Get(key) == Some(!(s.systems.autoConvertToggles.Get(key) == Some(true)))
      && (forall k :: k != key ==> r.systems.autoConvertToggles.Get(k) == s.systems.autoConvertToggles.Get(k))
      && r.(systems := r.systems.(autoConvertToggles := s.systems.autoConvertToggles)) == s
    ensures key in s.systems.autoConvertToggles.values ==> Flipped(Flipped(s, key), key) == s
  {
    if key in s.systems.autoConvertToggles.values {
      var t := s.systems.autoConvertToggles;
      assert t.Put(key, !(t.Get(key) == Some(true))).Put(key, t.values[key]).values == t.values;
    }
  }

  /** The checkbox writes only the `_max` entry, never the pair's own toggle. */
  lemma MaxSetOnlyKey(s: State, key: string, checked: bool)
    ensures var r := MaxSet(s, key, checked);
      && r.systems.autoConvertToggles.Get(key + "_max") == Some(checked)
      && (forall k :: k != key + "_max" ==> r.systems.autoConvertToggles.Get(k) == s.systems.autoConvertToggles.Get(k))
      && r.systems.autoConvertToggles.Get(key) == s.systems.autoConvertToggles.Get(key)
  {
    assert |key + "_max"| != |key|;
  }

  /** The toggle button's click on the live store. */
  method FlipToggle(g: Game, key: string)
    modifies g
    ensures g.Snapshot() == Flipped(old(g.Snapshot()), key)
  {
    var next := !(g.systems.autoConvertToggles.Get(key) == Some(true));
    g.systems := g.systems.(autoConvertToggles := g.systems.autoConvertToggles.Put(key, next));
  }

  /** The checkbox's change on the live store. */
  method SetMaxToggle(g: Game, key: string, checked: bool)
    modifies g
    ensures g.Snapshot() == MaxSet(old(g.Snapshot()), key, checked)
  {
    g.systems := g.systems.(autoConvertToggles := g.systems.autoConvertToggles.Put(key + "_max", checked));
  }
}
