/**
 * The rig (scripts/managers/rigManager.js): the list of installed part ids
 * that the rack's install and uninstall buttons change in place, and
 * `applyPartBonuses`, which totals the installed parts' effects on top of
 * the prestige stats and writes the result to the `display*` fields only.
 */
module RigManager {
  import opened Wrappers
  import opened RealMath
  import opened GameState
  import opened Parts

  /** `base[stat]`. */
  function StatOf(r: RigStats, st: Stat): real {
    match st
    case ProcessingPower => r.processingPower
    case Speed => r.speed
    case Memory => r.memory
    case StorageSlots => r.storageSlots
  }

  /** `base[stat] += v`: only that stat changes. */
  function Bump(r: RigStats, st: Stat, v: real): (q: RigStats)
    ensures StatOf(q, st) == StatOf(r, st) + v
    ensures forall o :: o != st ==> StatOf(q, o) == StatOf(r, o)
  {
    match st
    case ProcessingPower => r.(processingPower := r.processingPower + v)
    case Speed => r.(speed := r.speed + v)
    case Memory => r.(memory := r.memory + v)
    case StorageSlots => r.(storageSlots := r.storageSlots + v)
  }

  /** `base`: the prestige stats, each falling back to its default when zero. */
  function Base(m: Meta): RigStats {
    RigStats(Or(m.processingPower, 0.0), Or(m.speed, 1.0), Or(m.memory, 0.0), Or(m.storageSlots, 1.0))
  }

  /** The inner `for…in` over a part's effects. */
  function AddEffects(r: RigStats, es: seq<(Stat, real)>): RigStats {
    if es == [] then r
    else var e := es[|es| - 1]; Bump(AddEffects(r, es[..|es| - 1]), e.0, e.1)
  }

  /** One installed id: its part's effects, or nothing when no part of `ps` has that id. */
  function AddPart(ps: seq<Part>, r: RigStats, id: string): RigStats {
    match Find(ps, id)
    case None => r
    case Some(p) => AddEffects(r, p.effects)
  }

  /** The `forEach` over the installed ids. */
  function Accumulate(ps: seq<Part>, r: RigStats, ids: seq<string>): RigStats {
    if ids == [] then r
    else AddPart(ps, Accumulate(ps, r, ids[..|ids| - 1]), ids[|ids| - 1])
  }

  /** The rig totals `applyPartBonuses` computes. */
  function PartBonuses(m: Meta): RigStats {
    Accumulate(Catalog(), Base(m), m.installedParts)
  }

  /** Reference total: what the listed ids add to one stat, part by part. */
  function InstalledAmount(ps: seq<Part>, ids: seq<string>, st: Stat): real {
    if ids == [] then 0.0
    else InstalledAmount(ps, ids[..|ids| - 1], st) + PartAmount(ps, ids[|ids| - 1], st)
  }

  lemma {:induction false} AddEffectsStat(r: RigStats, es: seq<(Stat, real)>, st: Stat)
    ensures StatOf(AddEffects(r, es), st) == StatOf(r, st) + Amount(es, st)
  {
    if es != [] {
      AddEffectsStat(r, es[..|es| - 1], st);
    }
  }

  lemma {:induction false} AccumulateStat(ps: seq<Part>, r: RigStats, ids: seq<string>, st: Stat)
    ensures StatOf(Accumulate(ps, r, ids), st) == StatOf(r, st) + InstalledAmount(ps, ids, st)
  {
    if ids != [] {
      var front := ids[..|ids| - 1];
      AccumulateStat(ps, r, front, st);
      match Find(ps, ids[|ids| - 1])
      case None =>
      case Some(p) => AddEffectsStat(Accumulate(ps, r, front), p.effects, st);
    }
  }

  /**
   * Each displayed stat is its base value (0, 1, 0, 1 when unset) plus the
   * sum of that stat over the installed parts; the slot count is only ever
   * the base, since no part adds slots.
   */
  lemma BonusesPerStat(m: Meta, st: Stat)
    ensures StatOf(PartBonuses(m), st) == StatOf(Base(m), st) + InstalledAmount(Catalog(), m.installedParts, st)
    ensures PartBonuses(m).storageSlots == Or(m.storageSlots, 1.0)
  {
    AccumulateStat(Catalog(), Base(m), m.installedParts, st);
    SlotsOnlyBase(m);
  }

  /** The slot total is the base slot count. */
  lemma SlotsOnlyBase(m: Meta)
    ensures PartBonuses(m).storageSlots == Or(m.storageSlots, 1.0)
  {
    CatalogEffects();
    AccumulateKeepsSlots(Catalog(), Base(m), m.installedParts);
  }

  /** Folding in parts that never name the slots leaves the slot count alone. */
  lemma {:induction false} AccumulateKeepsSlots(ps: seq<Part>, r: RigStats, ids: seq<string>)
    requires forall p, e :: p in ps && e in p.effects ==> e.1 > 0.0 && e.0 != StorageSlots
    ensures Accumulate(ps, r, ids).storageSlots == r.storageSlots
  {
    if ids != [] {
      var front := ids[..|ids| - 1];
      AccumulateKeepsSlots(ps, r, front);
      match Find(ps, ids[|ids| - 1])
      case None =>
      case Some(p) =>
        AddEffectsStat(Accumulate(ps, r, front), p.effects, StorageSlots);
        NoSlotAmount(p.effects);
    }
  }

  lemma {:induction false} SlotsUnchanged(ids: seq<string>)
    ensures InstalledAmount(Catalog(), ids, StorageSlots) == 0.0
  {
    if ids != [] {
      SlotsUnchanged(ids[..|ids| - 1]);
      NoPartAddsSlots(ids[|ids| - 1]);
    }
  }

  /** An installed id that no part carries changes no total. */
  lemma UnknownIdAddsNothing(ps: seq<Part>, ids: seq<string>, id: string, st: Stat)
    requires id !in Ids(ps)
    ensures InstalledAmount(ps, ids + [id], st) == InstalledAmount(ps, ids, st)
  {
    assert (ids + [id])[..|ids|] == ids;
  }

  /** `applyPartBonuses()` as a state change: only `display` is written. */
  function WithBonuses(s: State): State {
    s.(meta := s.meta.(display := Some(PartBonuses(s.meta))))
  }

  /** The prestige stats themselves are never overwritten, and nothing outside `meta` changes. */
  lemma BonusesKeepPrestigeStats(s: State)
    ensures var r := WithBonuses(s);
      && r.meta.processingPower == s.meta.processingPower
      && r.meta.speed == s.meta.speed
      && r.meta.memory == s.meta.memory
      && r.meta.storageSlots == s.meta.storageSlots
      && r.meta.installedParts == s.meta.installedParts
      && r.meta.display.Some?
      && r.(meta := s.meta) == s
  {
  }

  /** `applyPartBonuses()` on the live store: the totals go to `display` only. */
  method ApplyPartBonuses(g: Game)
    modifies g
    ensures g.Snapshot() == WithBonuses(old(g.Snapshot()))
  {
    var stats := Totals(g.meta);
    g.meta := g.meta.(display := Some(stats));
  }

  /** The `forEach` over the installed ids, accumulating into a local `base`. */
  method Totals(m: Meta) returns (stats: RigStats)
    ensures stats == PartBonuses(m)
  {
    var ids := m.installedParts;
    var ps := Catalog();
    stats := Base(m);
    var i := 0;
    while i < |ids|
      invariant 0 <= i <= |ids|
      invariant stats == Accumulate(ps, Base(m), ids[..i])
    {
      AccumulateStep(ps, Base(m), ids, i);
      var found := Find(ps, ids[i]);
      if found.Some? {
        stats := AddPartEffects(stats, found.value.effects);
      }
      i := i + 1;
    }
    assert ids[..i] == ids;
  }

  /** One more id folds one more part in. */
  lemma AccumulateStep(ps: seq<Part>, r: RigStats, ids: seq<string>, i: nat)
    requires i < |ids|
    ensures Accumulate(ps, r, ids[..i + 1]) == AddPart(ps, Accumulate(ps, r, ids[..i]), ids[i])
  {
    assert ids[..i + 1][..i] == ids[..i];
  }

  /** The inner `for…in` over one part's effects. */
  method AddPartEffects(start: RigStats, es: seq<(Stat, real)>) returns (stats: RigStats)
    ensures stats == AddEffects(start, es)
  {
    stats := start;
    var j := 0;
    while j < |es|
      invariant 0 <= j <= |es|
      invariant stats == AddEffects(start, es[..j])
    {
      assert es[..j + 1][..j] == es[..j];
      stats := Bump(stats, es[j].0, es[j].1);
      j := j + 1;
    }
    assert es[..j] == es;
  }

  /** `gameState.meta.storageSlots || 1`. */
  function Slots(m: Meta): real {
    Or(m.storageSlots, 1.0)
  }

  /**
   * A part's install button exists when it is in the catalog and not yet
   * installed, and fewer parts are installed than there are slots.
   */
  predicate InstallOffered(m: Meta, id: string) {
    id in Ids(Catalog()) && id !in m.installedParts && (|m.installedParts| as real) < Slots(m)
  }

  /** The install button: push the id, then refresh the totals. */
  function Installed(s: State, id: string): Option<State> {
    if InstallOffered(s.meta, id)
    then Some(WithBonuses(s.(meta := s.meta.(installedParts := s.meta.installedParts + [id]))))
    else None
  }

  /**
   * Installed ids are catalog parts, none twice, and they fit the slots: no
   * more of them than the slot count rounded up (the slot count is whole in
   * play, where this is at most `slots`).
   */
  predicate RigValid(m: Meta) {
    && Unique(m.installedParts)
    && (forall id :: id in m.installedParts ==> id in Ids(Catalog()))
    && (|m.installedParts| as real) < Slots(m) + 1.0
  }

  /** Installing appends exactly the id and keeps the list duplicate-free and within the slots. */
  lemma InstallKeepsRigValid(s: State, id: string)
    requires RigValid(s.meta) && Installed(s, id).Some?
    ensures var m := Installed(s, id).value.meta;
      m.installedParts == s.meta.installedParts + [id] && RigValid(m)
  {
    AppendKeepsValid(s.meta.installedParts, id, Ids(Catalog()), Slots(s.meta));
  }

  /** Appending a known id that is not yet listed keeps a list unique, known and below `slots`. */
  lemma AppendKeepsValid(ids: seq<string>, id: string, known: seq<string>, slots: real)
    requires Unique(ids) && (forall x :: x in ids ==> x in known) && (|ids| as real) < slots
    requires id in known && id !in ids
    ensures Unique(ids + [id]) && (forall x :: x in ids + [id] ==> x in known)
    ensures (|ids + [id]| as real) < slots + 1.0
  {
  }

  /** Install is refused once every slot is taken, whatever the part. */
  lemma FullRigRefusesInstall(s: State, id: string)
    requires (|s.meta.installedParts| as real) >= Slots(s.meta)
    ensures Installed(s, id) == None
  {
  }

  /**
   * Every non-empty id in a slot below `slots` is one of `known`: the slot
   * loop draws a card for each, and a card for an id with no part throws.
   */
  predicate CardsDrawn(ids: seq<string>, slots: real, known: seq<string>) {
    forall j :: 0 <= j < |ids| && (j as real) < slots && ids[j] != "" ==> ids[j] in known
  }

  /**
   * Slot `i`'s uninstall button exists when `i` is below the slot count and
   * holds an id, and the slot loop finishes: the row of slots is attached
   * only after the loop, so one id with no part in any slot below the count
   * leaves no uninstall button at all.
   */
  predicate UninstallOffered(m: Meta, i: int) {
    && 0 <= i < |m.installedParts|
    && (i as real) < Slots(m)
    && m.installedParts[i] != ""
    && CardsDrawn(m.installedParts, Slots(m), Ids(Catalog()))
  }

  /** An id with no part in a slot below the count hides every uninstall button. */
  lemma UnknownIdHidesUninstall(m: Meta, j: int, i: int)
    requires 0 <= j < |m.installedParts| && (j as real) < Slots(m)
    requires m.installedParts[j] != "" && m.installedParts[j] !in Ids(Catalog())
    ensures !UninstallOffered(m, i)
  {
  }

  /** The uninstall button: `splice(i, 1)`, then refresh the totals. */
  function Uninstalled(s: State, i: int): Option<State> {
    if UninstallOffered(s.meta, i)
    then
      var ids := s.meta.installedParts;
      Some(WithBonuses(s.(meta := s.meta.(installedParts := ids[..i] + ids[i + 1..]))))
    else None
  }

  /**
   * Uninstalling removes exactly the entry at `i`: the ones before stay
   * where they are and the ones after move down by one, and the list stays
   * valid.
   */
  lemma UninstallRemovesIndex(s: State, i: int)
    requires Uninstalled(s, i).Some?
    ensures var ids, r := s.meta.installedParts, Uninstalled(s, i).value.meta.installedParts;
      && |r| == |ids| - 1
      && (forall j :: 0 <= j < i ==> r[j] == ids[j])
      && (forall j :: i <= j < |r| ==> r[j] == ids[j + 1])
      && multiset(r) + multiset{ids[i]} == multiset(ids)
    ensures RigValid(s.meta) ==> RigValid(Uninstalled(s, i).value.meta)
  {
    RemoveAt(s.meta.installedParts, i, Ids(Catalog()), Slots(s.meta));
  }

  /** Removing entry `i` of a list: the neighbours close up, and a unique, known list within `slots` stays so. */
  lemma RemoveAt(ids: seq<string>, i: int, known: seq<string>, slots: real)
    requires 0 <= i < |ids|
    ensures var r := ids[..i] + ids[i + 1..];
      && |r| == |ids| - 1
      && (forall j :: 0 <= j < i ==> r[j] == ids[j])
      && (forall j :: i <= j < |r| ==> r[j] == ids[j + 1])
      && multiset(r) + multiset{ids[i]} == multiset(ids)
      && (Unique(ids) && (forall x :: x in ids ==> x in known) && (|ids| as real) < slots + 1.0
          ==> Unique(r) && (forall x :: x in r ==> x in known) && (|r| as real) < slots + 1.0)
  {
    assert ids == ids[..i] + [ids[i]] + ids[i + 1..];
  }

  /** The totals do not read the display fields they overwrite. */
  lemma WithBonusesIgnoresDisplay(s: State, d: Option<RigStats>)
    ensures WithBonuses(s.(meta := s.meta.(display := d))) == WithBonuses(s)
  {
    assert s.meta.(display := d).installedParts == s.meta.installedParts;
    assert Base(s.meta.(display := d)) == Base(s.meta);
  }

  /** The slot of a part just installed offers its uninstall button. */
  lemma UninstallOfferedAfterInstall(m: Meta, id: string)
    requires RigValid(m) && InstallOffered(m, id)
    ensures UninstallOffered(m.(installedParts := m.installedParts + [id]), |m.installedParts|)
  {
    NoEmptyId();
    LastOffered(m.installedParts, id, Ids(Catalog()), Slots(m));
  }

  /** The entry just appended to a known list within `slots` is a non-empty known id below `slots`, and every card draws. */
  lemma LastOffered(ids: seq<string>, id: string, known: seq<string>, slots: real)
    requires (forall x :: x in ids ==> x in known) && id in known && "" !in known && (|ids| as real) < slots
    ensures var l := ids + [id];
      && |ids| < |l| && (|ids| as real) < slots && l[|ids|] != ""
      && CardsDrawn(l, slots, known)
  {
    var l := ids + [id];
    forall j | 0 <= j < |l| && (j as real) < slots && l[j] != ""
      ensures l[j] in known
    {
      if j < |ids| {
        assert l[j] == ids[j];
      }
    }
  }

  /** Uninstalling the part just installed gives back the rig as it was, totals refreshed. */
  lemma InstallThenUninstall(s: State, id: string)
    requires RigValid(s.meta) && Installed(s, id).Some?
    ensures Uninstalled(Installed(s, id).value, |s.meta.installedParts|) == Some(WithBonuses(s))
  {
    var ids := s.meta.installedParts;
    var longer := s.(meta := s.meta.(installedParts := ids + [id]));
    var r := WithBonuses(longer);
    assert Installed(s, id) == Some(r);
    UninstallOfferedAfterInstall(s.meta, id);
    OfferedIgnoresDisplay(longer.meta, r.meta.display, |ids|);
    UninstallAppended(s, id, r);
  }

  /** Splicing out the entry just appended restores the list, and so the totals. */
  lemma UninstallAppended(s: State, id: string, r: State)
    requires r == WithBonuses(s.(meta := s.meta.(installedParts := s.meta.installedParts + [id])))
    requires UninstallOffered(r.meta, |s.meta.installedParts|)
    ensures Uninstalled(r, |s.meta.installedParts|) == Some(WithBonuses(s))
  {
    var ids := s.meta.installedParts;
    assert (ids + [id])[..|ids|] + (ids + [id])[|ids| + 1..] == ids;
    assert r.(meta := r.meta.(installedParts := ids)) == s.(meta := s.meta.(display := r.meta.display));
    WithBonusesIgnoresDisplay(s, r.meta.display);
  }

  /** Whether an uninstall button is offered does not depend on the display fields. */
  lemma OfferedIgnoresDisplay(m: Meta, d: Option<RigStats>, i: int)
    ensures UninstallOffered(m.(display := d), i) == UninstallOffered(m, i)
  {
    assert m.(display := d).installedParts == m.installedParts;
    assert Slots(m.(display := d)) == Slots(m);
  }

  /** The install button on the live store. */
  method InstallPart(g: Game, id: string) returns (done: bool)
    modifies g
    ensures done == InstallOffered(old(g.meta), id)
    ensures g.Snapshot() == Installed(old(g.Snapshot()), id).GetOr(old(g.Snapshot()))
  {
    done := InstallOffered(g.meta, id);
    if done {
      g.meta := g.meta.(installedParts := g.meta.installedParts + [id]);
      ApplyPartBonuses(g);
    }
  }

  /** The uninstall button of slot `i` on the live store. */
  method UninstallPart(g: Game, i: int) returns (done: bool)
    modifies g
    ensures done == UninstallOffered(old(g.meta), i)
    ensures g.Snapshot() == Uninstalled(old(g.Snapshot()), i).GetOr(old(g.Snapshot()))
  {
    done := UninstallOffered(g.meta, i);
    if done {
      var ids := g.meta.installedParts;
      g.meta := g.meta.(installedParts := ids[..i] + ids[i + 1..]);
      ApplyPartBonuses(g);
    }
  }
}
