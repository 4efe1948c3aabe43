/** `canBuyUpgrade` and `buyUpgrade`
    (packages/ludiek/src/plugins/upgrade/UpgradePlugin.ts:37-63). The plugin
    pays for a level through the engine's `canConsume` and `consume`, so both
    are stated over the engine that hosts the plugin. */
module UpgradePurchase {
  import opened Values
  import opened Upgrades
  import opened Extensions
  import opened Resolution
  import opened Engine

  /** The price of the next level, while there is one. */
  function NextCost(engine: LudiekEngine, id: string): Payload
    requires engine.Valid() && engine.upgrade.SupportsUpgrade(id)
    requires engine.upgrade.levels[id] < |engine.upgrade.upgrades.entries[id].costPerLevel|
    reads engine, engine.generator, engine.upgrade
  {
    engine.upgrade.upgrades.entries[id].costPerLevel[engine.upgrade.levels[id]]
  }

  /** `canBuyUpgrade(id)`: an unknown id throws; an upgrade at its maximum
      level cannot be bought; otherwise the answer is whether the price of the
      next level can be consumed, and a price nobody consumes throws. */
  function CanBuyUpgrade(engine: LudiekEngine, id: string): (r: Result<bool>)
    requires engine.Valid()
    reads engine, engine.generator, engine.upgrade
    ensures !engine.upgrade.SupportsUpgrade(id) ==> r == Err(UnknownUpgrade(id))
    ensures r == Ok(true) <==>
              && engine.upgrade.SupportsUpgrade(id)
              && engine.upgrade.levels[id] < |engine.upgrade.upgrades.entries[id].costPerLevel|
              && engine.CanConsume(One(NextCost(engine, id))) == Ok(true)
    ensures engine.upgrade.IsMaxLevel(id) == Ok(true) ==> r == Ok(false)
    ensures engine.upgrade.SupportsUpgrade(id) && engine.upgrade.levels[id] < |engine.upgrade.upgrades.entries[id].costPerLevel| ==>
              r == engine.CanConsume(One(NextCost(engine, id)))
    ensures r.Err? && engine.upgrade.SupportsUpgrade(id) ==>
              r.error == InputNotFound(NextCost(engine, id).tag, engine.consumers.Keys)
  {
    if !engine.upgrade.SupportsUpgrade(id) then Err(UnknownUpgrade(id))
    else if engine.upgrade.IsMaxLevel(id).value then Ok(false)
    else engine.CanConsume(One(engine.upgrade.GetCost(id).value.value))
  }

  /** `buyUpgrade(id)`: buys exactly when CanBuyUpgrade says it can. A
      purchase consumes the price of the next level, raises the level by one
      and reports the upgrade with its new level and whether that is the
      maximum; a refusal changes nothing. */
  method BuyUpgrade(engine: LudiekEngine, id: string) returns (r: Result<bool>)
    requires engine.Valid()
    modifies engine, engine.upgrade
    ensures engine.Valid() && engine.Reg() == old(engine.Reg()) && engine.activeBonuses == old(engine.activeBonuses)
    ensures engine.upgrade.upgrades == old(engine.upgrade.upgrades)
    ensures r == old(CanBuyUpgrade(engine, id))
    ensures r != Ok(true) ==>
              && engine.ledger == old(engine.ledger)
              && engine.upgrade.levels == old(engine.upgrade.levels)
              && engine.upgrade.events == old(engine.upgrade.events)
    ensures r == Ok(true) ==>
              && var u := engine.upgrade.upgrades.entries[id];
              && var level := old(engine.upgrade.levels)[id] + 1;
              && engine.ledger == ConsumeAll(old(engine.Reg()), old(engine.Now()), [old(NextCost(engine, id))]).world.ledger
              && engine.upgrade.levels == old(engine.upgrade.levels)[id := level]
              && engine.upgrade.events == old(engine.upgrade.events) + [UpgradeBought(u, level, level == |u.costPerLevel|)]
  {
    var valid := engine.upgrade.Validate(id);
    if valid.Fail? {
      return Err(valid.error);
    }
    var affordable := CanBuyUpgrade(engine, id);
    if affordable != Ok(true) {
      return affordable;
    }
    Purchase(engine, id);
    return Ok(true);
  }

  /** The purchase itself, once CanBuyUpgrade said yes: consuming the price
      cannot throw, since every part of it was checked. */
  method Purchase(engine: LudiekEngine, id: string)
    requires engine.Valid() && CanBuyUpgrade(engine, id) == Ok(true)
    modifies engine, engine.upgrade
    ensures engine.Valid() && engine.Reg() == old(engine.Reg()) && engine.activeBonuses == old(engine.activeBonuses)
    ensures engine.upgrade.upgrades == old(engine.upgrade.upgrades)
    ensures var u := engine.upgrade.upgrades.entries[id];
            var level := old(engine.upgrade.levels)[id] + 1;
            && engine.ledger == ConsumeAll(old(engine.Reg()), old(engine.Now()), [old(NextCost(engine, id))]).world.ledger
            && engine.upgrade.levels == old(engine.upgrade.levels)[id := level]
            && engine.upgrade.events == old(engine.upgrade.events) + [UpgradeBought(u, level, level == |u.costPerLevel|)]
  {
    var cost := engine.upgrade.GetCost(id).value.value;
    ConsumeAfterCheck(engine.Reg(), engine.Now(), engine.Now(), One(cost));
    var paid := engine.Consume(One(cost));
    engine.upgrade.Advance(id);
  }
}
