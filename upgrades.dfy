/** The upgrade plugin: a bounded level counter per loaded upgrade, with a cost
    per level and a bonus per level (packages/ludiek/src/plugins/upgrade).
    Buying, which needs the engine, is in module UpgradePurchase. */
module Upgrades {
  import opened Values
  import opened Records

  datatype UpgradeDefinition = UpgradeDefinition(
    id: string,
    costPerLevel: seq<Payload>,
    bonusPerLevel: seq<Payload>,
    accumulateBonuses: bool)

  /** The UpgradeBought event: the upgrade, its new level and whether that is the maximum. */
  datatype UpgradeBought = UpgradeBought(upgrade: UpgradeDefinition, level: int, isMaxLevel: bool)

  /** The plugin's saved state: the `levels` object. */
  type Levels = map<string, int>

  /** A definition passes `loadContent`'s check: one bonus per cost. */
  predicate Matches(u: UpgradeDefinition)
  {
    |u.costPerLevel| == |u.bonusPerLevel|
  }

  /** Every loaded upgrade has a level between 0 and its number of levels. */
  ghost predicate LevelsInRange(upgrades: map<string, UpgradeDefinition>, levels: Levels)
  {
    forall id :: id in upgrades ==> id in levels && 0 <= levels[id] <= |upgrades[id].costPerLevel|
  }

  /** The index of the first definition `loadContent` rejects, or the batch length. */
  function FirstMismatch(content: seq<UpgradeDefinition>): (k: nat)
    ensures k <= |content|
    ensures forall i :: 0 <= i < k ==> Matches(content[i])
    ensures k < |content| ==> !Matches(content[k])
  {
    if content == [] then 0
    else if !Matches(content[0]) then 0
    else 1 + FirstMismatch(content[1..])
  }

  /** The first definition that fails the check is the first mismatch. */
  lemma MismatchAt(content: seq<UpgradeDefinition>, i: nat)
    requires i < |content| && !Matches(content[i])
    requires forall j :: 0 <= j < i ==> Matches(content[j])
    ensures FirstMismatch(content) == i
  {
  }

  /** The definitions after registering each one of `content` under its id in turn. */
  function Register(upgrades: Record<UpgradeDefinition>, content: seq<UpgradeDefinition>): Record<UpgradeDefinition>
    decreases |content|
  {
    if content == [] then upgrades
    else
      var u := content[|content| - 1];
      Register(upgrades, content[..|content| - 1]).Put(u.id, u)
  }

  /** The levels after setting each id of `content` to 0 in turn. */
  function ResetLevels(levels: Levels, content: seq<UpgradeDefinition>): Levels
    decreases |content|
  {
    if content == [] then levels
    else ResetLevels(levels, content[..|content| - 1])[content[|content| - 1].id := 0]
  }

  /** The invariant of the loaded content: each definition sits under its own id
      and has passed the length check. */
  ghost predicate WellLoaded(upgrades: Record<UpgradeDefinition>)
  {
    && upgrades.Valid()
    && forall id :: id in upgrades.entries ==> upgrades.entries[id].id == id && Matches(upgrades.entries[id])
  }

  /** Registering checked definitions and resetting their levels keeps every
      loaded upgrade registered under its id, and puts every level, old or new,
      in range: the new ones at 0. */
  lemma {:induction false} RegisterKeepsInvariant(upgrades: Record<UpgradeDefinition>, levels: Levels, content: seq<UpgradeDefinition>)
    requires WellLoaded(upgrades) && LevelsInRange(upgrades.entries, levels)
    requires forall i :: 0 <= i < |content| ==> Matches(content[i])
    ensures WellLoaded(Register(upgrades, content))
    ensures LevelsInRange(Register(upgrades, content).entries, ResetLevels(levels, content))
    ensures forall i :: 0 <= i < |content| ==>
              content[i].id in ResetLevels(levels, content) && ResetLevels(levels, content)[content[i].id] == 0
    decreases |content|
  {
    if content != [] {
      var n := |content| - 1;
      var front := content[..n];
      RegisterKeepsInvariant(upgrades, levels, front);
      forall i | 0 <= i < |content|
        ensures content[i].id in ResetLevels(levels, content) && ResetLevels(levels, content)[content[i].id] == 0
      {
        if i < n {
          assert content[i] == front[i];
        }
      }
    }
  }

  /** The bonuses an upgrade at `level` contributes: none at level 0, the first
      `level` bonuses when they accumulate, otherwise the bonus of the level reached. */
  function BonusesAt(u: UpgradeDefinition, level: nat): seq<Payload>
    requires level <= |u.bonusPerLevel|
  {
    if level == 0 then []
    else if u.accumulateBonuses then u.bonusPerLevel[..level]
    else [u.bonusPerLevel[level - 1]]
  }

  /** Reaching the next level adds its bonus to an accumulating upgrade and
      replaces the bonus of a non-accumulating one. */
  lemma BonusesAtNextLevel(u: UpgradeDefinition, level: nat)
    requires level < |u.bonusPerLevel|
    ensures u.accumulateBonuses ==> BonusesAt(u, level + 1) == BonusesAt(u, level) + [u.bonusPerLevel[level]]
    ensures !u.accumulateBonuses ==> BonusesAt(u, level + 1) == [u.bonusPerLevel[level]]
  {
    if u.accumulateBonuses {
      assert u.bonusPerLevel[..level + 1] == u.bonusPerLevel[..level] + [u.bonusPerLevel[level]];
    }
  }

  /** `getBonuses()`: the bonuses of every loaded upgrade, in upgrade order. */
  function CollectBonuses(keys: seq<string>, upgrades: map<string, UpgradeDefinition>, levels: Levels): seq<Payload>
    requires forall k :: k in keys ==> k in upgrades
    requires forall k :: k in keys ==> Matches(upgrades[k])
    requires LevelsInRange(upgrades, levels)
  {
    if keys == [] then []
    else
      var k := keys[0];
      assert k in keys && k in upgrades && Matches(upgrades[k]);
      assert k in levels && 0 <= levels[k] <= |upgrades[k].costPerLevel|;
      BonusesAt(upgrades[k], levels[k]) + CollectBonuses(keys[1..], upgrades, levels)
  }

  /** Every bonus `getBonuses` returns is unlocked: it is the bonus of a level
      some loaded upgrade has reached. */
  lemma {:induction false} CollectedBonusesAreUnlocked(keys: seq<string>, upgrades: map<string, UpgradeDefinition>, levels: Levels)
    requires forall k :: k in keys ==> k in upgrades
    requires forall k :: k in keys ==> Matches(upgrades[k])
    requires LevelsInRange(upgrades, levels)
    ensures forall b :: b in CollectBonuses(keys, upgrades, levels) ==>
              exists k, j :: k in keys && 0 <= j < levels[k] && upgrades[k].bonusPerLevel[j] == b
  {
    if keys != [] {
      var k := keys[0];
      CollectedBonusesAreUnlocked(keys[1..], upgrades, levels);
      var u, level := upgrades[k], levels[k];
      forall b | b in BonusesAt(u, level)
        ensures exists k', j :: k' in keys && 0 <= j < levels[k'] && upgrades[k'].bonusPerLevel[j] == b
      {
        var j :| 0 <= j < level && u.bonusPerLevel[j] == b;
        assert k in keys;
      }
      forall b | b in CollectBonuses(keys[1..], upgrades, levels)
        ensures exists k', j :: k' in keys && 0 <= j < levels[k'] && upgrades[k'].bonusPerLevel[j] == b
      {
        var k', j :| k' in keys[1..] && 0 <= j < levels[k'] && upgrades[k'].bonusPerLevel[j] == b;
        assert k' in keys;
      }
    }
  }

  /** Each of `bonuses` is the bonus of a level some upgrade has reached. */
  ghost predicate Unlocked(upgrades: map<string, UpgradeDefinition>, levels: Levels, bonuses: seq<Payload>)
  {
    forall b :: b in bonuses ==>
      exists k, j :: k in upgrades && k in levels && 0 <= j < levels[k] && j < |upgrades[k].bonusPerLevel| && upgrades[k].bonusPerLevel[j] == b
  }

  /** Every bonus a reached level of a listed upgrade unlocks is among
      `bonuses`: each of the first `level` bonuses of an accumulating upgrade,
      and the bonus of the level reached of any other. */
  ghost predicate CompleteFor(keys: seq<string>, upgrades: map<string, UpgradeDefinition>, levels: Levels, bonuses: seq<Payload>)
  {
    && (forall k, j :: k in keys && k in upgrades && k in levels && upgrades[k].accumulateBonuses && 0 <= j < levels[k] && j < |upgrades[k].bonusPerLevel| ==>
          upgrades[k].bonusPerLevel[j] in bonuses)
    && (forall k :: k in keys && k in upgrades && k in levels && !upgrades[k].accumulateBonuses && 0 < levels[k] <= |upgrades[k].bonusPerLevel| ==>
          upgrades[k].bonusPerLevel[levels[k] - 1] in bonuses)
  }

  /** The same for every upgrade of `upgrades`. */
  ghost predicate Complete(upgrades: map<string, UpgradeDefinition>, levels: Levels, bonuses: seq<Payload>)
  {
    && (forall k, j :: k in upgrades && k in levels && upgrades[k].accumulateBonuses && 0 <= j < levels[k] && j < |upgrades[k].bonusPerLevel| ==>
          upgrades[k].bonusPerLevel[j] in bonuses)
    && (forall k :: k in upgrades && k in levels && !upgrades[k].accumulateBonuses && 0 < levels[k] <= |upgrades[k].bonusPerLevel| ==>
          upgrades[k].bonusPerLevel[levels[k] - 1] in bonuses)
  }

  /** Nothing a listed upgrade has unlocked is left out. */
  lemma {:induction false} CollectedBonusesComplete(keys: seq<string>, upgrades: map<string, UpgradeDefinition>, levels: Levels)
    requires forall k :: k in keys ==> k in upgrades
    requires forall k :: k in keys ==> Matches(upgrades[k])
    requires LevelsInRange(upgrades, levels)
    ensures CompleteFor(keys, upgrades, levels, CollectBonuses(keys, upgrades, levels))
  {
    if keys != [] {
      var first, rest := keys[0], keys[1..];
      assert forall k :: k in rest ==> k in keys;
      CollectedBonusesComplete(rest, upgrades, levels);
      var here := BonusesAt(upgrades[first], levels[first]);
      var r := CollectBonuses(keys, upgrades, levels);
      assert r == here + CollectBonuses(rest, upgrades, levels);
      forall k | k in keys && k != first
        ensures k in rest
      {
      }
      forall k, j | k in keys && k in upgrades && k in levels && upgrades[k].accumulateBonuses && 0 <= j < levels[k] && j < |upgrades[k].bonusPerLevel|
        ensures upgrades[k].bonusPerLevel[j] in r
      {
        if k == first {
          assert upgrades[k].bonusPerLevel[j] == here[j];
        }
      }
    }
  }

  /** Collecting over two key lists one after the other is collecting over
      each and concatenating. */
  lemma {:induction false} CollectBonusesAppend(front: seq<string>, back: seq<string>, upgrades: map<string, UpgradeDefinition>, levels: Levels)
    requires forall k :: k in front ==> k in upgrades && Matches(upgrades[k])
    requires forall k :: k in back ==> k in upgrades && Matches(upgrades[k])
    requires LevelsInRange(upgrades, levels)
    ensures CollectBonuses(front + back, upgrades, levels) == CollectBonuses(front, upgrades, levels) + CollectBonuses(back, upgrades, levels)
  {
    if front == [] {
      assert front + back == back;
    } else {
      var all, tail := front + back, front[1..];
      assert all[0] == front[0] && all[1..] == tail + back;
      assert forall k :: k in tail ==> k in front;
      CollectBonusesAppend(tail, back, upgrades, levels);
      var here := BonusesAt(upgrades[front[0]], levels[front[0]]);
      assert CollectBonuses(all, upgrades, levels) == here + CollectBonuses(tail + back, upgrades, levels);
      assert CollectBonuses(front, upgrades, levels) == here + CollectBonuses(tail, upgrades, levels);
    }
  }

  /** Each listed upgrade contributes its `BonusesAt` in its own place: after
      the upgrades listed before it and before the ones listed after it. */
  lemma CollectBonusesAt(keys: seq<string>, upgrades: map<string, UpgradeDefinition>, levels: Levels, i: nat)
    requires forall k :: k in keys ==> k in upgrades
    requires forall k :: k in keys ==> Matches(upgrades[k])
    requires LevelsInRange(upgrades, levels)
    requires i < |keys|
    ensures CollectBonuses(keys, upgrades, levels) ==
              CollectBonuses(keys[..i], upgrades, levels) + BonusesAt(upgrades[keys[i]], levels[keys[i]]) + CollectBonuses(keys[i + 1..], upgrades, levels)
  {
    var before, at, after := keys[..i], [keys[i]], keys[i + 1..];
    assert keys == before + (at + after);
    CollectBonusesAppend(before, at + after, upgrades, levels);
    CollectBonusesAppend(at, after, upgrades, levels);
    assert CollectBonuses(at, upgrades, levels) == BonusesAt(upgrades[keys[i]], levels[keys[i]]) + CollectBonuses([], upgrades, levels);
  }

  /** An upgrade still at level 0 contributes nothing. */
  lemma {:induction false} LevelZeroContributesNothing(keys: seq<string>, upgrades: map<string, UpgradeDefinition>, levels: Levels)
    requires forall k :: k in keys ==> k in upgrades
    requires forall k :: k in keys ==> Matches(upgrades[k])
    requires LevelsInRange(upgrades, levels)
    requires forall k :: k in keys ==> levels[k] == 0
    ensures CollectBonuses(keys, upgrades, levels) == []
  {
    if keys != [] {
      LevelZeroContributesNothing(keys[1..], upgrades, levels);
    }
  }

  class UpgradePlugin {
    const name: string
    var upgrades: Record<UpgradeDefinition>
    var levels: Levels
    ghost var events: seq<UpgradeBought>

    ghost predicate Valid()
      reads this
    {
      && name == "upgrade"
      && WellLoaded(upgrades)
      && LevelsInRange(upgrades.entries, levels)
    }

    /** `new UpgradePlugin(state)`: no upgrades yet, the given levels. */
    constructor (state: Levels)
      ensures Valid()
      ensures upgrades == Empty() && levels == state && events == []
    {
      name := "upgrade";
      upgrades := Empty();
      levels := state;
      events := [];
    }

    /** `loadContent`: registers each upgrade at level 0, in order, and throws
        UnknownLevelMismatchError at the first one whose costs and bonuses differ
        in length; the ones before it stay registered. */
    method LoadContent(content: seq<UpgradeDefinition>) returns (r: Outcome)
      requires Valid()
      modifies this
      ensures Valid() && events == old(events)
      ensures var k := FirstMismatch(content);
              && (r.Fail? <==> k < |content|)
              && (r.Fail? ==> r.error == LevelMismatch(content[k].id, |content[k].costPerLevel|, |content[k].bonusPerLevel|))
              && upgrades == Register(old(upgrades), content[..k])
              && levels == ResetLevels(old(levels), content[..k])
    {
      var registered, reset := upgrades, levels;
      var i := 0;
      while i < |content| && Matches(content[i])
        invariant 0 <= i <= |content|
        invariant forall j :: 0 <= j < i ==> Matches(content[j])
        invariant registered == Register(upgrades, content[..i])
        invariant reset == ResetLevels(levels, content[..i])
      {
        var u := content[i];
        assert content[..i + 1][..i] == content[..i];
        registered := registered.Put(u.id, u);
        reset := reset[u.id := 0];
        i := i + 1;
      }
      RegisterKeepsInvariant(upgrades, levels, content[..i]);
      upgrades, levels := registered, reset;
      if i < |content| {
        MismatchAt(content, i);
        var u := content[i];
        r := Fail(LevelMismatch(u.id, |u.costPerLevel|, |u.bonusPerLevel|));
      } else {
        r := Pass;
      }
    }

    /** `supportsUpgrade(id)`: true exactly for a loaded id; in a valid
        plugin that upgrade has a level between 0 and its maximum. */
    function SupportsUpgrade(id: string): (r: bool)
      reads this
      ensures r <==> id in upgrades.entries
      ensures r && Valid() ==> id in levels && levels[id] <= |upgrades.entries[id].costPerLevel|
    {
      id in upgrades.entries
    }

    /** `validate(id)`: throws UnknownUpgradeError for an id that was not loaded. */
    function Validate(id: string): (r: Outcome)
      reads this
      ensures r == Pass <==> SupportsUpgrade(id)
      ensures r.Fail? ==> r.error == UnknownUpgrade(id)
    {
      if SupportsUpgrade(id) then Pass else Fail(UnknownUpgrade(id))
    }

    function GetUpgrade(id: string): (r: Result<UpgradeDefinition>)
      reads this
      ensures r.Err? <==> !SupportsUpgrade(id)
      ensures r.Err? ==> r.error == UnknownUpgrade(id)
      ensures r.Ok? ==> r.value == upgrades.entries[id]
    {
      match Validate(id)
      case Fail(e) => Err(e)
      case Pass => Ok(upgrades.entries[id])
    }

    /** `getMaxLevel(id)`: the number of costs. */
    function GetMaxLevel(id: string): (r: Result<nat>)
      reads this
      ensures r.Err? <==> !SupportsUpgrade(id)
      ensures r.Err? ==> r.error == UnknownUpgrade(id)
      ensures r.Ok? ==> r.value == |upgrades.entries[id].costPerLevel|
    {
      match Validate(id)
      case Fail(e) => Err(e)
      case Pass => Ok(|upgrades.entries[id].costPerLevel|)
    }

    /** `getLevel(id)`: the current level, always within 0..getMaxLevel(id). */
    function GetLevel(id: string): (r: Result<int>)
      requires Valid()
      reads this
      ensures r.Err? <==> !SupportsUpgrade(id)
      ensures r.Err? ==> r.error == UnknownUpgrade(id)
      ensures r.Ok? ==> r.value == levels[id] && 0 <= r.value <= GetMaxLevel(id).value
    {
      match Validate(id)
      case Fail(e) => Err(e)
      case Pass => Ok(levels[id])
    }

    /** `isMaxLevel(id)`: the level equals the number of levels. */
    function IsMaxLevel(id: string): (r: Result<bool>)
      requires Valid()
      reads this
      ensures r.Err? <==> !SupportsUpgrade(id)
      ensures r.Err? ==> r.error == UnknownUpgrade(id)
      ensures r.Ok? ==> (r.value <==> GetLevel(id).value == GetMaxLevel(id).value)
    {
      match Validate(id)
      case Fail(e) => Err(e)
      case Pass => Ok(levels[id] == |upgrades.entries[id].costPerLevel|)
    }

    /** `getCost(id)`: the cost of the current level, which is the cost of
        reaching the next one; at the maximum level there is none (the source
        returns `undefined`). */
    function GetCost(id: string): (r: Result<Option<Payload>>)
      requires Valid()
      reads this
      ensures r.Err? <==> !SupportsUpgrade(id)
      ensures r.Err? ==> r.error == UnknownUpgrade(id)
      ensures r.Ok? ==> (r.value.None? <==> IsMaxLevel(id).value)
      ensures r.Ok? && r.value.Some? ==> r.value.value == upgrades.entries[id].costPerLevel[levels[id]]
    {
      match Validate(id)
      case Fail(e) => Err(e)
      case Pass =>
        var level := levels[id];
        if level < |upgrades.entries[id].costPerLevel| then Ok(Some(upgrades.entries[id].costPerLevel[level])) else Ok(None)
    }

    /** `getBonuses()`: the unlocked bonuses of each upgrade, the upgrades in
        key order. */
    function GetBonuses(): (r: seq<Payload>)
      requires Valid()
      reads this
      ensures Unlocked(upgrades.entries, levels, r)
      ensures Complete(upgrades.entries, levels, r)
      ensures (forall id :: id in upgrades.entries ==> levels[id] == 0) ==> r == []
    {
      upgrades.OrderListed();
      CollectedBonusesAreUnlocked(upgrades.Order(), upgrades.entries, levels);
      CollectedBonusesComplete(upgrades.Order(), upgrades.entries, levels);
      if forall id :: id in upgrades.entries ==> levels[id] == 0 then
        LevelZeroContributesNothing(upgrades.Order(), upgrades.entries, levels);
        CollectBonuses(upgrades.Order(), upgrades.entries, levels)
      else
        CollectBonuses(upgrades.Order(), upgrades.entries, levels)
    }

    /** In `getBonuses()`, the upgrade `i`-th in key order contributes exactly
        the `BonusesAt` of its level, between the contributions of the upgrades
        before it and those after it. */
    lemma GetBonusesPlaces(i: nat)
      requires Valid() && i < |upgrades.Order()|
      ensures var keys := upgrades.Order();
              && (forall k :: k in keys ==> k in upgrades.entries)
              && GetBonuses() ==
                   CollectBonuses(keys[..i], upgrades.entries, levels)
                   + BonusesAt(upgrades.entries[keys[i]], levels[keys[i]])
                   + CollectBonuses(keys[i + 1..], upgrades.entries, levels)
    {
      upgrades.OrderListed();
      CollectBonusesAt(upgrades.Order(), upgrades.entries, levels, i);
    }

    /** The tail of `buyUpgrade` once the cost is paid: `levels[id]++`, then
        UpgradeBought with the new level and whether it is the maximum. */
    method Advance(id: string)
      requires Valid() && SupportsUpgrade(id)
      requires levels[id] < |upgrades.entries[id].costPerLevel|
      modifies this
      ensures Valid() && upgrades == old(upgrades)
      ensures levels == old(levels)[id := old(levels)[id] + 1]
      ensures events == old(events) + [UpgradeBought(upgrades.entries[id], levels[id], levels[id] == |upgrades.entries[id].costPerLevel|)]
    {
      levels := levels[id := levels[id] + 1];
      var level := levels[id];
      events := events + [UpgradeBought(upgrades.entries[id], level, level == |upgrades.entries[id].costPerLevel|)];
    }

    /** The state the engine saves for this plugin. */
    function Save(): Levels
      reads this
    {
      levels
    }

    /** Installs saved levels; definitions are content, not state, and stay. */
    method Load(state: Levels)
      requires Valid() && LevelsInRange(upgrades.entries, state)
      modifies this
      ensures Valid() && levels == state
      ensures upgrades == old(upgrades) && events == old(events)
    {
      levels := state;
    }
  }
}
