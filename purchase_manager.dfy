/**
 * Buying an upgrade (scripts/managers/purchaseManager.js): refuse an owned
 * key, check the floored balance, then debit, record ownership and queue
 * the effect for the next microtask.
 */
module PurchaseManager {
  import opened Utils
  import opened UpgradeEffects
  import opened GameState
  import opened UpgradeTemplates
  import opened UpgradeDefinitions
  import UiRenderer

  /** Why a purchase did nothing, or that it went through. */
  datatype Outcome = AlreadyOwned | InvalidAmount | NotEnough | Bought

  /**
   * `purchaseUpgrade(upg, resourceKey)`. No catalog entry has a `currency`
   * field, so the currency is always the tier passed in.
   */
  function Purchased(s: State, u: Upgrade, currency: Tier): (State, Outcome) {
    var has := s.resources.Get(currency).Floor;
    if u.key in s.upgrades.owned then (s, AlreadyOwned)
    else if has < 0 then (s, InvalidAmount)
    else if has as real >= u.cost then
      (s.(resources := s.resources.Add(currency, -u.cost),
          upgrades := s.upgrades.(owned := s.upgrades.owned + {u.key}),
          pending := s.pending + [u.effect]),
       Bought)
    else (s, NotEnough)
  }

  /**
   * A purchase goes through exactly when the key is not owned and the
   * floored balance is neither negative nor below the cost; any other call
   * changes nothing.
   */
  lemma PurchaseSucceedsIff(s: State, u: Upgrade, currency: Tier)
    ensures var (s', o) := Purchased(s, u, currency);
      && (o == Bought <==>
            u.key !in s.upgrades.owned && s.resources.Get(currency).Floor >= 0
            && s.resources.Get(currency).Floor as real >= u.cost)
      && (o == AlreadyOwned <==> u.key in s.upgrades.owned)
      && (o != Bought ==> s' == s)
  {
  }

  /**
   * On success the balance of the currency falls by exactly the cost and
   * stays non-negative, the key joins the owned set, and the effect waits
   * at the back of the queue: it has not run, and nothing else changed.
   */
  lemma PurchaseCommits(s: State, u: Upgrade, currency: Tier)
    requires Purchased(s, u, currency).1 == Bought
    ensures var s' := Purchased(s, u, currency).0;
      && s'.resources.Get(currency) == s.resources.Get(currency) - u.cost
      && s'.resources.Get(currency) >= 0.0
      && (forall t :: t != currency ==> s'.resources.Get(t) == s.resources.Get(t))
      && s'.upgrades.owned == s.upgrades.owned + {u.key}
      && s'.pending == s.pending + [u.effect]
      && s'.upgrades.conversionBonuses == s.upgrades.conversionBonuses
      && s'.generation == s.generation && s'.systems == s.systems && s'.meta == s.meta
  {
    var b := s.resources.Get(currency);
    assert b.Floor as real <= b;
  }

  /** Buying a key a second time changes nothing, whatever the first call did. */
  lemma PurchaseIdempotent(s: State, u: Upgrade, currency: Tier)
    requires Purchased(s, u, currency).1 in {Bought, AlreadyOwned}
    ensures var s' := Purchased(s, u, currency).0;
      Purchased(s', u, currency) == (s', AlreadyOwned)
  {
  }

  /** Every effect of `es`, run in order on `s`. */
  function RunAll(s: State, es: seq<Effect>): State
    decreases |es|
  {
    if es == [] then s else RunAll(Apply(s, es[0]), es[1..])
  }

  /** The queued microtasks run: the queue empties, then each effect runs once, oldest first. */
  function Drained(s: State): State {
    RunAll(s.(pending := []), s.pending)
  }

  /**
   * Buying with an empty queue and then letting the microtask run leaves
   * the debited, owned state with the upgrade's effect applied exactly once.
   */
  lemma PurchaseThenDrain(s: State, u: Upgrade, currency: Tier)
    requires s.pending == [] && Purchased(s, u, currency).1 == Bought
    ensures var s' := Purchased(s, u, currency).0;
      Drained(s') == Apply(s'.(pending := []), u.effect)
  {
    var s' := Purchased(s, u, currency).0;
    var x := s'.(pending := []);
    assert s'.pending == [u.effect] && [u.effect][1..] == [];
    assert Drained(s') == RunAll(x, [u.effect]) == RunAll(Apply(x, u.effect), []);
  }

  /** `purchaseUpgrade` on the live store. */
  method PurchaseUpgrade(g: Game, u: Upgrade, currency: Tier) returns (outcome: Outcome)
    modifies g
    ensures (g.Snapshot(), outcome) == Purchased(old(g.Snapshot()), u, currency)
  {
    var has := g.resources.Get(currency).Floor;
    if u.key in g.upgrades.owned {
      return AlreadyOwned;
    }
    if has < 0 {
      return InvalidAmount;
    }
    if has as real >= u.cost {
      g.resources := g.resources.Add(currency, -u.cost);
      g.upgrades := g.upgrades.(owned := g.upgrades.owned + {u.key});
      g.pending := g.pending + [u.effect];
      outcome := Bought;
    } else {
      outcome := NotEnough;
    }
  }

  /** The microtask queue runs: each queued effect once, in the order the purchases queued them. */
  method DrainPending(g: Game, ui: UiRenderer.Renderer)
    modifies g, ui
    ensures g.Snapshot() == Drained(old(g.Snapshot()))
    ensures ui.pending == (old(ui.pending) || old(g.pending) != [])
  {
    var queue := g.pending;
    g.pending := [];
    var i := 0;
    while i < |queue|
      invariant 0 <= i <= |queue|
      invariant RunAll(g.Snapshot(), queue[i..]) == Drained(old(g.Snapshot()))
      invariant ui.pending == (old(ui.pending) || i > 0)
    {
      assert queue[i..][0] == queue[i] && queue[i..][1..] == queue[i + 1..];
      Invoke(g, queue[i]);
      ui.RequestTierUpdate();
      i := i + 1;
    }
  }
}
