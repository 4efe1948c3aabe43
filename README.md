# ludiek rules engine — a Dafny model

This project models the core of `packages/ludiek`, an incremental-game rules
engine, and proves properties of it.

**The engine (`LudiekEngine`)**
- It holds five registries of extensions, keyed by the tag each handles: evaluators, consumers, producers, controllers and modifiers.
- It evaluates conditions, checks and consumes inputs, checks and produces outputs, and resolves requests.
- It runs transactions on a check-first, all-or-nothing basis.
- It keeps a table of active bonuses, refilled before every tick from the plugins' bonuses, and reduces it additively or multiplicatively in `getBonus`.
- It saves and loads its plugins by name.

**The two plugins**
- The generator plugin is a per-id active/inactive state machine. Its `tick` runs every active generator: conditions first, then the input scaled by `delta`, then the output scaled by `delta`.
- The upgrade plugin is a bounded level counter. Each level's purchase is paid through the engine.

**The contributions**
- Three contributions tie the generator plugin to the transaction path: `/generator/activate`, `/generator/deactivate` and `/generator/is-active`.

**The game object (`LudiekGame`)**
- Its tick runs the engine's pre-tick and then the features' updates.
- It then counts down to the next save, stores a save when the countdown runs out, and announces the tick.
- Its save and load combine the features with the engine.

## How the model is built

**Values and errors**
- Payloads (conditions, inputs, outputs, requests, bonuses) are values, so copying one before `modify` needs no model.
- Amounts are `real`.
- A thrown error is an `Outcome`/`Result` value. The operations that can throw halfway through return what happened before the throw, because effects applied before a throw stay applied (`Resolution.Effect`).

**Extensions**
- Extensions are datatypes.
- The three generator contributions are concrete variants.
- Every other extension (test doubles, currencies, statistics) is an abstract variant whose behaviour is a function over the `Ledger`. The ledger is the state of every plugin outside this model.
- These abstract operations never throw, and their `modify` depends on the payload alone (see "## Left out").

**State and specifications**
- The engine, the two plugins and the game are classes whose methods change their fields.
- Dispatched events are a ghost log the methods append to.
- Each method is proved against a function that states what it does (`ConsumeAll`, `ProduceAll`, `Transact`, `TickAll`, `Collect`, `Updated`, ...). The lemmas about those functions state what the source promises.

**Object key order**
- Object key order matters in `Object.entries`/`Object.values`: for `isActive` in `tick`, the upgrade list, the bonus table and the feature list.
- `Records.Record` models such an object's own keys (nothing inherited from `Object.prototype`): its insertion order, where a new key is appended and an existing key keeps its place, and its entries.
- `Records.Record.Order` is the order JavaScript lists the keys in (section 10.1.11.1 of ECMA-262, OrdinaryOwnPropertyKeys): array-index keys first, in ascending numeric order, then every other key in insertion order. An array index is a canonical decimal below 2^32 − 1, such as `"0"` or `"42"`, but not `"007"` or `"-1"`.
- Every iteration over an object's keys in the model uses `Order`.

**Module cycle**
- `tick`, `canBuyUpgrade` and `buyUpgrade` call back into the engine through the plugin base class.
- Dafny modules cannot import each other in a cycle, so these three take the hosting engine as a parameter. They live in `GeneratorTick` and `UpgradePurchase`.

Source paths below are relative to the repository root.

## Model

| member | source | states |
|---|---|---|
| Engine.LudiekEngine.constructor | packages/ludiek/src/engine/LudiekEngine.ts:33-47 | each configured extension list is registered in order under its tags (last of a tag wins); the bonus table starts as the given state |
| Extensions.Index | packages/ludiek/src/engine/LudiekEngine.ts:40-44 | registering a list stores each extension under its tag; every tag of the list is present, and an extension not followed by one with the same tag is the one stored |
| Engine.LudiekEngine.RegisterEvaluator | packages/ludiek/src/engine/LudiekEngine.ts:69-72 | the evaluator is stored under its tag, replacing any earlier one; no other registry or key changes |
| Engine.LudiekEngine.RegisterConsumer | packages/ludiek/src/engine/LudiekEngine.ts:74-77 | the consumer is stored under its tag, replacing any earlier one; nothing else changes |
| Engine.LudiekEngine.RegisterProducer | packages/ludiek/src/engine/LudiekEngine.ts:79-82 | the producer is stored under its tag, replacing any earlier one; nothing else changes |
| Engine.LudiekEngine.RegisterController | packages/ludiek/src/engine/LudiekEngine.ts:84-87 | the controller is stored under its tag, replacing any earlier one; nothing else changes |
| Engine.LudiekEngine.RegisterModifier | packages/ludiek/src/engine/LudiekEngine.ts:89-92 | the modifier is stored under its tag, replacing any earlier one; nothing else changes |
| Resolution.Every | packages/ludiek/src/engine/LudiekEngine.ts:102-105 | `every` with a throwing check: true iff every item is true; otherwise the outcome of the first item that is not, with all items before it true |
| Resolution.EveryStopsAtFirstFailure | packages/ludiek/src/engine/LudiekEngine.ts:102-105 | once a prefix fails, appending items never changes the outcome: evaluation stops at the first non-true item |
| Resolution.EvaluateOne | packages/ludiek/src/engine/LudiekEngine.ts:102-106 | one condition: ConditionNotFound with the registered tags when its tag has no evaluator, otherwise the evaluator's verdict on its modified copy |
| Resolution.EvaluateShapes | packages/ludiek/src/engine/LudiekEngine.ts:97-101 | `evaluate(c)` equals `evaluate([c])` and the one condition's verdict; `evaluate([])` is true |
| Resolution.Evaluate | packages/ludiek/src/engine/LudiekEngine.ts:97-107 | `evaluate`: true iff every condition evaluates to true; otherwise the verdict of the first condition that does not (false or its error), with every condition before it true |
| Engine.LudiekEngine.Evaluate | packages/ludiek/src/engine/LudiekEngine.ts:97-107 | the same over the engine's current registries and state |
| Resolution.CanConsumeOne | packages/ludiek/src/engine/LudiekEngine.ts:143-155 | one input: InputNotFound when its tag has no consumer, otherwise the consumer's `canConsume` on the modified copy |
| Resolution.CanConsume | packages/ludiek/src/engine/LudiekEngine.ts:143-155 | `canConsume`: true iff every input can be consumed; otherwise the verdict of the first input that cannot (false or InputNotFound), with every input before it true |
| Engine.LudiekEngine.CanConsume | packages/ludiek/src/engine/LudiekEngine.ts:143-155 | the same over the engine's current registries and state |
| Resolution.CanProduceOne | packages/ludiek/src/engine/LudiekEngine.ts:175-187 | one output: OutputNotFound when its tag has no producer, otherwise the producer's `canProduce` on the modified copy |
| Resolution.CanProduce | packages/ludiek/src/engine/LudiekEngine.ts:175-187 | `canProduce`: true iff every output can be produced; otherwise the verdict of the first output that cannot (false or OutputNotFound), with every output before it true |
| Engine.LudiekEngine.CanProduce | packages/ludiek/src/engine/LudiekEngine.ts:175-187 | the same over the engine's current registries and state |
| Resolution.ConsumeAll | packages/ludiek/src/engine/LudiekEngine.ts:159-171 | consuming touches only the ledger: generator definitions and flags are kept and no generator event is dispatched |
| Resolution.ConsumeAllStops | packages/ludiek/src/engine/LudiekEngine.ts:164-170 | once an input throws, the inputs after it have no effect |
| Resolution.ConsumeAllSucceeds | packages/ludiek/src/engine/LudiekEngine.ts:164-170 | consuming throws nothing when every input's tag has a consumer |
| Resolution.ConsumeAfterCheck | packages/ludiek/src/engine/LudiekEngine.ts:143-171 | inputs that passed `canConsume` are consumed without a not-found error, in any world |
| Resolution.SwitchStep | packages/ludiek/src/plugins/generator/contributions/ActivateGenerator.ts:22-25 | a switch output keeps the ledger and the definitions, and fails exactly for an unloaded id |
| Resolution.ProduceStep | packages/ludiek/src/engine/LudiekEngine.ts:196-200 | producing one output never changes the generator definitions |
| Resolution.ProduceAll | packages/ludiek/src/engine/LudiekEngine.ts:191-201 | producing every output in turn keeps the generator definitions |
| Resolution.ProduceAllStops | packages/ludiek/src/engine/LudiekEngine.ts:196-200 | once an output throws, the outputs after it have no effect |
| Resolution.ProduceAfterCheck | packages/ludiek/src/engine/LudiekEngine.ts:175-201 | outputs that passed `canProduce` are produced with no not-found error and no failed generator switch, also after the input was consumed |
| Resolution.Check | packages/ludiek/src/engine/LudiekEngine.ts:117-127 | the check phase passes iff each present part passes (requirement, input, output); an absent part passes |
| Resolution.Transact | packages/ludiek/src/engine/LudiekEngine.ts:114-137 | a transaction never changes the generator definitions; an error thrown by an effect is what `handleTransaction` throws; a true result means no effect threw |
| Resolution.TransactAllOrNothing | packages/ludiek/src/engine/LudiekEngine.ts:114-137 | `handleTransaction` is true iff every check passes; a failed check returns its outcome with no effect; after passing checks the effect phase raises no not-found error and no failed generator switch |
| Resolution.Request | packages/ludiek/src/engine/LudiekEngine.ts:109-112 | ControllerNotFound when no controller has the tag; otherwise only the ledger changes, as the controller resolves it |
| Engine.LudiekEngine.Consume | packages/ludiek/src/engine/LudiekEngine.ts:159-171 | the loop leaves exactly the state `ConsumeAll` describes, and throws exactly when it does |
| Engine.LudiekEngine.Produce | packages/ludiek/src/engine/LudiekEngine.ts:191-201 | the loop leaves exactly the state and event log `ProduceAll` describes, and throws exactly when it does |
| Engine.LudiekEngine.HandleTransaction | packages/ludiek/src/engine/LudiekEngine.ts:114-137 | result, new state and dispatched events are those of `Transact`: checks first, then consume once, then produce once |
| Engine.LudiekEngine.Request | packages/ludiek/src/engine/LudiekEngine.ts:109-112 | the request's controller resolves it, or ControllerNotFound with nothing changed |
| Extensions.GetEvaluator | packages/ludiek/src/engine/LudiekEngine.ts:272-283 | the registered evaluator, or ConditionNotFound listing the registered tags |
| Extensions.GetProducer | packages/ludiek/src/engine/LudiekEngine.ts:289-300 | the registered producer, or OutputNotFound listing the registered tags |
| Extensions.GetConsumer | packages/ludiek/src/engine/LudiekEngine.ts:306-317 | the registered consumer, or InputNotFound listing the registered tags |
| Extensions.GetController | packages/ludiek/src/engine/LudiekEngine.ts:323-333 | the registered controller, or ControllerNotFound listing the registered tags |
| Extensions.GetModifier | packages/ludiek/src/engine/LudiekEngine.ts:339-349 | the registered modifier, or ModifierNotFound listing the registered tags |
| Bonuses.Gather | packages/ludiek/src/engine/LudiekEngine.ts:208-210 | a contribution is gathered iff some slot holds it under the bonus's identity |
| Bonuses.GatherFlattens | packages/ludiek/src/engine/LudiekEngine.ts:208-210 | gathering is the `flatMap`: each plugin slot's list for the identity in full, duplicates kept, the slots concatenated in the table's key order |
| Bonuses.FoldAddIsSum | packages/ludiek/src/engine/LudiekEngine.ts:214 | the additive reduction is the start plus the sum of the amounts |
| Bonuses.FoldMulIsGrowth | packages/ludiek/src/engine/LudiekEngine.ts:216 | the multiplicative reduction is the start times the product of one plus each amount |
| Bonuses.GetBonus | packages/ludiek/src/engine/LudiekEngine.ts:203-221 | ModifierNotFound for an unregistered tag; otherwise default plus the sum (additive), default times the product of (1 + amount) (multiplicative), or 0 for an unknown variant |
| Engine.LudiekEngine.GetBonus | packages/ludiek/src/engine/LudiekEngine.ts:203-221 | the engine's `getBonus` over its registries and active bonus table: ModifierNotFound for an unregistered tag, otherwise the additive, multiplicative or unknown-variant reduction of the gathered contributions |
| Bonuses.GroupCollects | packages/ludiek/src/engine/LudiekEngine.ts:235-244 | grouping with every tag registered throws nothing, and each identity's list is exactly the bonuses with that identity, in order |
| Bonuses.GroupStopsAt | packages/ludiek/src/engine/LudiekEngine.ts:235-244 | an unregistered tag throws ModifierNotFound, and the bonuses after it are not grouped |
| Bonuses.GroupThrowsAtFirstMissing | packages/ludiek/src/engine/LudiekEngine.ts:237-244 | grouping throws ModifierNotFound naming the first bonus whose modifier is not registered, and throws nothing when there is none |
| Bonuses.Collect | packages/ludiek/src/engine/LudiekEngine.ts:227-246 | `collectBonuses` throws exactly when some bonus has no registered modifier, with ModifierNotFound for the first such bonus (CollectResets and CollectFills state the table it leaves) |
| Bonuses.CollectResets | packages/ludiek/src/engine/LudiekEngine.ts:227-246 | `collectBonuses` keeps the table well formed, keeps slots of names outside the plugin list as they were, and leaves the generator plugin's slot empty |
| Bonuses.CollectFills | packages/ludiek/src/engine/LudiekEngine.ts:235-244 | with every bonus tag registered, the upgrade slot holds, for each identity, exactly the matching bonuses |
| Engine.GroupBonuses | packages/ludiek/src/engine/LudiekEngine.ts:235-244 | the nested push-or-start loop builds the grouping `Group` describes, stopping at the first unregistered tag |
| Engine.LudiekEngine.PreTick | packages/ludiek/src/engine/LudiekEngine.ts:377-380 | the bonus table becomes `Collect` of the upgrade plugin's bonuses (partly filled if a modifier is missing, then it throws); ledger and registries are kept |
| Engine.LudiekEngine.Save | packages/ludiek/src/engine/LudiekEngine.ts:351-359 | exactly one entry per plugin, keyed by its name, holding that plugin's state |
| Engine.LudiekEngine.SaveLoadable | packages/ludiek/src/engine/LudiekEngine.ts:351-368 | what `save` returns is data `load` accepts, so saving and then loading restores the flags and the levels |
| Engine.LudiekEngine.Load | packages/ludiek/src/engine/LudiekEngine.ts:361-368 | a plugin with an entry takes it, a plugin without one keeps its state; definitions and event logs are kept |
| Generators.Validate | packages/ludiek/src/plugins/generator/GeneratorPlugin.ts:177-181 | passes iff the id was loaded, otherwise UnknownGenerator |
| Generators.GeneratorPlugin.SupportsGenerator | packages/ludiek/src/plugins/generator/GeneratorPlugin.ts:34-36 | true exactly for a loaded id, the test `validate` makes; in a valid plugin the definition there carries that id |
| Generators.GeneratorPlugin.GetGenerator | packages/ludiek/src/plugins/generator/GeneratorPlugin.ts:29-32 | the loaded definition, or UnknownGenerator iff the id was not loaded |
| Generators.ActiveQuery | packages/ludiek/src/plugins/generator/GeneratorPlugin.ts:81-84 | `isGeneratorActive`: UnknownGenerator iff not loaded, otherwise the current flag |
| Generators.GeneratorPlugin.IsGeneratorActive | packages/ludiek/src/plugins/generator/GeneratorPlugin.ts:81-84 | UnknownGenerator exactly for an id that was not loaded, otherwise the current flag, an absent flag reading false |
| Generators.SetActive | packages/ludiek/src/plugins/generator/GeneratorPlugin.ts:46-74 | a switch fails, with UnknownGenerator, exactly for an unloaded id |
| Generators.SetActiveSwitches | packages/ludiek/src/plugins/generator/GeneratorPlugin.ts:46-74 | the flag becomes as asked, no other flag changes, and exactly one matching event is dispatched iff the flag changed |
| Generators.SetActiveIdempotent | packages/ludiek/src/plugins/generator/GeneratorPlugin.ts:46-74 | switching again to the same state changes nothing and dispatches nothing |
| Generators.GeneratorPlugin.ActivateGenerator | packages/ludiek/src/plugins/generator/GeneratorPlugin.ts:46-57 | throws before any change on an unknown id; otherwise state and events are those of `SetActive` with on = true |
| Generators.GeneratorPlugin.DeactivateGenerator | packages/ludiek/src/plugins/generator/GeneratorPlugin.ts:63-74 | throws before any change on an unknown id; otherwise state and events are those of `SetActive` with on = false |
| Generators.Scale | packages/ludiek/src/plugins/generator/GeneratorPlugin.ts:144-170 | every amount is multiplied by `delta`; tags, ids, order, length and single-or-array shape are kept |
| Generators.ScaleByOne | packages/ludiek/src/plugins/generator/GeneratorPlugin.ts:144-170 | scaling by 1 is the identity |
| Generators.ScaleTwice | packages/ludiek/src/plugins/generator/GeneratorPlugin.ts:144-170 | scaling by a then by b is scaling by a·b |
| Generators.GeneratorPlugin.LoadContent | packages/ludiek/src/plugins/generator/GeneratorPlugin.ts:22-27 | the loop leaves the definitions and flags `LoadDefinitions`/`LoadFlags` describe |
| Generators.LoadDefinitionsRegisters | packages/ludiek/src/plugins/generator/GeneratorPlugin.ts:22-27 | every definition is registered under its id (a later one with the same id wins); earlier definitions are kept, so `supportsGenerator` holds exactly for loaded ids |
| Generators.LoadFlagsKeeps | packages/ludiek/src/plugins/generator/GeneratorPlugin.ts:22-27 | loading adds a flag for each loaded id and keeps every other flag |
| Generators.LoadFlagsDeactivates | packages/ludiek/src/plugins/generator/GeneratorPlugin.ts:22-27 | every loaded generator is inactive afterwards, even one that was active |
| Generators.GeneratorPlugin.Load | packages/ludiek/src/plugins/generator/GeneratorPlugin.ts:13-19 | loading saved flags replaces the flags and keeps the definitions and the event log |
| GeneratorTick.Entries | packages/ludiek/src/plugins/generator/GeneratorPlugin.ts:87 | the snapshot lists the ids of `isActive` in JavaScript's key order (array indices ascending, then insertion order), each with its flag at the start of the tick |
| GeneratorTick.TickSkips | packages/ludiek/src/plugins/generator/GeneratorPlugin.ts:87-92 | an inactive entry or one without a definition changes nothing and dispatches nothing |
| GeneratorTick.TickConditionsNotMet | packages/ludiek/src/plugins/generator/GeneratorPlugin.ts:94-101 | false conditions dispatch `conditions_not_met` and nothing is consumed or produced |
| GeneratorTick.TickCannotConsume | packages/ludiek/src/plugins/generator/GeneratorPlugin.ts:103-113 | an unaffordable scaled input dispatches `cannot_consume_input` and nothing is consumed |
| GeneratorTick.TickCannotProduce | packages/ludiek/src/plugins/generator/GeneratorPlugin.ts:114-126 | an unproducible scaled output dispatches `cannot_produce_output` after the input was consumed: the input stays consumed |
| GeneratorTick.TickSucceeds | packages/ludiek/src/plugins/generator/GeneratorPlugin.ts:103-136 | when every check passes the turn raises no engine error, consumes the scaled input, produces the scaled output and dispatches GeneratorTicked with delta and both scaled amounts |
| GeneratorTick.TickAllIdle | packages/ludiek/src/plugins/generator/GeneratorPlugin.ts:86-89 | a tick in which no entry is active changes nothing and dispatches nothing |
| GeneratorTick.TickAllStops | packages/ludiek/src/plugins/generator/GeneratorPlugin.ts:87-137 | an error thrown in one turn ends the tick: later entries take no turn |
| GeneratorTick.TickTurn | packages/ludiek/src/plugins/generator/GeneratorPlugin.ts:87-136 | one turn through the engine's methods leaves exactly the state and events `TickOne` describes |
| GeneratorTick.Tick | packages/ludiek/src/plugins/generator/GeneratorPlugin.ts:86-138 | the whole tick leaves exactly the state and events `TickAll` describes over the start-of-tick snapshot of the flags |
| Records.OrderParts | packages/ludiek/src/plugins/generator/GeneratorPlugin.ts:87 | the enumeration order holds the same keys as the insertion order: the array-index keys first, in ascending numeric order, then the other keys in insertion order |
| Records.InsertSorts | packages/ludiek/src/plugins/generator/GeneratorPlugin.ts:87 | inserting a key into a list ascending by numeric value adds exactly that key and keeps the list ascending |
| Records.SortIndicesSorts | packages/ludiek/src/plugins/generator/GeneratorPlugin.ts:87 | the array-index keys are sorted: same keys, ascending numeric order |
| Records.Record.OrderValid | packages/ludiek/src/plugins/upgrade/UpgradePlugin.ts:140 | `Object.values` of a well-formed object lists every key exactly once and no other |
| Records.Record.OrderPlain | packages/ludiek/src/engine/LudiekEngine.ts:208 | an object with no array-index key, such as the bonus table keyed by plugin name, is listed in insertion order |
| Records.Record.Put | packages/ludiek/src/plugins/generator/GeneratorPlugin.ts:24-25 | `obj[k] = v` sets the entry; a new key goes last in insertion order, an existing key keeps its place, and keys stay distinct |
| Upgrades.FirstMismatch | packages/ludiek/src/plugins/upgrade/UpgradePlugin.ts:21-27 | the index of the first upgrade whose cost and bonus lists differ in length (or the batch length) |
| Upgrades.RegisterKeepsInvariant | packages/ludiek/src/plugins/upgrade/UpgradePlugin.ts:21-31 | loading checked upgrades keeps each under its id and every level in range, and puts each new one at level 0 |
| Upgrades.UpgradePlugin.LoadContent | packages/ludiek/src/plugins/upgrade/UpgradePlugin.ts:21-31 | throws UnknownLevelMismatch at the first mismatched upgrade; the upgrades before it stay registered at level 0 |
| Upgrades.UpgradePlugin.Validate | packages/ludiek/src/plugins/upgrade/UpgradePlugin.ts:106-110 | passes iff the upgrade was loaded, otherwise UnknownUpgrade |
| Upgrades.UpgradePlugin.SupportsUpgrade | packages/ludiek/src/plugins/upgrade/UpgradePlugin.ts:121-123 | true exactly for a loaded id; in a valid plugin that upgrade has a level between 0 and its maximum |
| Upgrades.UpgradePlugin.GetUpgrade | packages/ludiek/src/plugins/upgrade/UpgradePlugin.ts:112-115 | the loaded definition, or UnknownUpgrade |
| Upgrades.UpgradePlugin.GetMaxLevel | packages/ludiek/src/plugins/upgrade/UpgradePlugin.ts:69-72 | the number of costs, or UnknownUpgrade |
| Upgrades.UpgradePlugin.GetLevel | packages/ludiek/src/plugins/upgrade/UpgradePlugin.ts:96-99 | the current level, always between 0 and the maximum, or UnknownUpgrade |
| Upgrades.UpgradePlugin.IsMaxLevel | packages/ludiek/src/plugins/upgrade/UpgradePlugin.ts:78-81 | true iff the level equals the maximum, or UnknownUpgrade |
| Upgrades.UpgradePlugin.GetCost | packages/ludiek/src/plugins/upgrade/UpgradePlugin.ts:87-91 | the cost of the current level; none exactly at the maximum level; UnknownUpgrade for an unknown id |
| Upgrades.BonusesAtNextLevel | packages/ludiek/src/plugins/upgrade/UpgradePlugin.ts:125-137 | one more level adds that level's bonus to an accumulating upgrade, and replaces the bonus of any other |
| Upgrades.CollectedBonusesAreUnlocked | packages/ludiek/src/plugins/upgrade/UpgradePlugin.ts:125-137 | every bonus `getBonuses` returns belongs to a level the upgrade has reached |
| Upgrades.LevelZeroContributesNothing | packages/ludiek/src/plugins/upgrade/UpgradePlugin.ts:129-131 | upgrades all at level 0 contribute no bonus |
| Upgrades.UpgradePlugin.GetBonuses | packages/ludiek/src/plugins/upgrade/UpgradePlugin.ts:125-137 | every bonus returned belongs to a level its upgrade has reached; conversely every bonus of the first `level` levels of an accumulating upgrade, and the bonus of the level reached of any other, is returned; upgrades all at level 0 give none |
| Upgrades.UpgradePlugin.GetBonusesPlaces | packages/ludiek/src/plugins/upgrade/UpgradePlugin.ts:125-137 | the upgrade `i`-th in key order contributes exactly `BonusesAt` its level, after the contributions of the upgrades before it and before those of the upgrades after it |
| Upgrades.CollectedBonusesComplete | packages/ludiek/src/plugins/upgrade/UpgradePlugin.ts:125-137 | no bonus a listed upgrade's reached level unlocks is left out of the collected list |
| Upgrades.CollectBonusesAt | packages/ludiek/src/plugins/upgrade/UpgradePlugin.ts:125-137 | each listed upgrade's bonuses sit between those of the upgrades listed before and after it |
| Upgrades.CollectBonusesAppend | packages/ludiek/src/plugins/upgrade/UpgradePlugin.ts:125-137 | collecting over two key lists in turn concatenates the two collections |
| Upgrades.UpgradePlugin.Advance | packages/ludiek/src/plugins/upgrade/UpgradePlugin.ts:47-52 | the level rises by exactly one and UpgradeBought carries the new level and whether it is the maximum |
| Upgrades.UpgradePlugin.Load | packages/ludiek/src/plugins/upgrade/UpgradePlugin.ts:12-19 | loading in-range levels replaces the levels and keeps the definitions |
| UpgradePurchase.CanBuyUpgrade | packages/ludiek/src/plugins/upgrade/UpgradePlugin.ts:56-63 | UnknownUpgrade for an unknown id; false at the maximum level; below it, exactly the engine's `canConsume` of the next level's cost, its errors included |
| UpgradePurchase.BuyUpgrade | packages/ludiek/src/plugins/upgrade/UpgradePlugin.ts:37-54 | returns exactly what `canBuyUpgrade` said; a refusal changes nothing; a purchase consumes the cost once, raises the level by one and dispatches UpgradeBought |
| UpgradePurchase.Purchase | packages/ludiek/src/plugins/upgrade/UpgradePlugin.ts:44-52 | after a passed check, consuming the cost raises no not-found error, and the level and event follow |
| GeneratorContributions.CanSwitch | packages/ludiek/src/plugins/generator/contributions/ActivateGenerator.ts:17-20 | `canProduce` holds iff the switch would succeed, whatever the flags |
| GeneratorContributions.CanSwitchIgnoresAmount | packages/ludiek/src/plugins/generator/contributions/DeactivateGenerator.ts:17-20 | `canProduce` does not depend on the output's amount |
| GeneratorContributions.ProduceActivate | packages/ludiek/src/plugins/generator/contributions/ActivateGenerator.ts:22-25 | passes iff `canProduce`; the named generator becomes active and no other flag changes |
| GeneratorContributions.ProduceDeactivate | packages/ludiek/src/plugins/generator/contributions/DeactivateGenerator.ts:22-25 | passes iff `canProduce`; the named generator becomes inactive and no other flag changes |
| GeneratorContributions.EvaluateIsActive | packages/ludiek/src/plugins/generator/contributions/IsGeneratorActive.ts:17-20 | the generator's current flag, or UnknownGenerator for an unloaded id |
| GeneratorContributions.EvaluateAfterSwitch | packages/ludiek/src/plugins/generator/contributions/IsGeneratorActive.ts:17-20 | after a deactivation the is-active condition is false, after an activation true |
| Game.LudiekGame.constructor | packages/ludiek/src/engine/LudiekGame.ts:40-54 | features are filed by name, the feature list is their key order (`featureList`, line 136) and the save countdown starts at the save interval |
| Game.IndexKeyedByName | packages/ludiek/src/engine/LudiekGame.ts:46 | the feature map files each feature under its own name, and holds exactly the listed names |
| Game.UpdatedPointwise | packages/ludiek/src/engine/LudiekGame.ts:73 | each feature with an update is updated exactly once from its own state; every other state is kept |
| Game.LudiekGame.UpdateFeatures | packages/ludiek/src/engine/LudiekGame.ts:73 | the loop leaves the states `Updated` describes and reports the updates in list order |
| Game.LudiekGame.Countdown | packages/ludiek/src/engine/LudiekGame.ts:75-81 | the countdown drops by delta; at or below zero the game is stored once and the countdown restarts at the interval; otherwise nothing is stored |
| Game.LudiekGame.Tick | packages/ludiek/src/engine/LudiekGame.ts:71-84 | pre-tick first, and if it throws nothing else happens; then the feature updates, the countdown and save, and exactly one tick notification last |
| Game.LudiekGame.Save | packages/ludiek/src/engine/LudiekGame.ts:104-114 | the save holds the engine's save and each feature's state by name |
| Game.LoadedPointwise | packages/ludiek/src/engine/LudiekGame.ts:125-131 | a listed feature with saved data takes it; a feature without is skipped |
| Game.LudiekGame.Load | packages/ludiek/src/engine/LudiekGame.ts:121-133 | no data changes nothing; otherwise features load as `Loaded` describes, then the engine loads its part |
| Game.FeatureRoundTrip | packages/ludiek/src/engine/LudiekGame.ts:104-133 | loading what the features saved restores each feature's state |
| Game.SaveLoadRestoresFeatures | packages/ludiek/src/engine/LudiekGame.ts:104-133 | loading a game's save gives every feature back its saved state |
| Game.LudiekGame.Evaluate | packages/ludiek/src/engine/LudiekGame.ts:86-88 | exactly the engine's `evaluate` over its registry and state, errors included; true iff every condition is true |
| Game.LudiekGame.HandleTransaction | packages/ludiek/src/engine/LudiekGame.ts:90-94 | acts and returns exactly as the engine's `handleTransaction` |
| Game.LudiekGame.Request | packages/ludiek/src/engine/LudiekGame.ts:96-98 | acts exactly as the engine's `request` |
| Scenarios.ConditionsNotMetScenario | packages/ludiek/tests/plugins/generator/generator-plugin-events.spec.ts:119-145 | a generator behind a false condition fails its turn with `conditions_not_met` |
| Scenarios.ProducesScaledOutputScenario | packages/ludiek/src/plugins/generator/GeneratorPlugin.ts:119-136 | output 10 with delta 0.5 produces 5 and reports it |
| Scenarios.InactiveScenario | packages/ludiek/src/plugins/generator/GeneratorPlugin.ts:87-89 | an inactive generator takes no turn |
| Scenarios.AdditiveScenario | packages/ludiek/src/engine/LudiekEngine.ts:213-214 | contributions 2 and 3 on default 1 give 6 |
| Scenarios.MultiplicativeScenario | packages/ludiek/src/engine/LudiekEngine.ts:215-216 | contributions 0.5 and 1 on default 1 give 3 |
| Scenarios.ActivateUnknownRefused | packages/ludiek/src/plugins/generator/contributions/ActivateGenerator.ts:17-20 | activating an unloaded id in a transaction returns false with no effect |
| Scenarios.DeactivateOnce | examples/contribution-pattern-demo.ts:195-213 | "deactivate if active" succeeds once and dispatches the deactivation; run again it returns false and changes nothing |

## Left out

- Generators.GeneratorPlugin.IsGeneratorActive: for a loaded id whose flag is missing (after `load` installed saved flags that lack it) the source returns `undefined`, while the model returns false; inside the core both read as "not active" (the engine's `every` over conditions treats it as false, and `tick` only visits ids that have a flag), but a direct caller could tell them apart.
- Timers and storage: `start`/`stop` (`setInterval`) and `loadFromStorage` are not modelled. Storing a save is a ghost `Stored` event holding the save; the storage key and encoder are not modelled.
- Event dispatch to subscribers is not modelled. Each dispatcher is an appended ghost log, and the game's tick notification is a ghost event.
- `cloneDeep` is not needed, because payloads are values. The `console.error` in `getBonus` is not modelled.
- TypeScript generics and `PluginMap`/`FeatureMap` are type-level only.
- The plugin list is fixed: the engine hosts exactly the generator plugin and then the upgrade plugin.
  - Every other plugin (currency, statistics, test doubles) is the abstract `Ledger`, which custom extensions read and change.
  - `plugin.inject` is not modelled.
- The plugin base class `LudiekPlugin` is not part of this model. A plugin's save is its state, and its load installs the saved state.
- Engine.LudiekEngine.Load and Game.LudiekGame.Load require data each plugin can take (`Loadable`): a flag record for the generator plugin and in-range levels for the upgrade plugin. The source does not validate saved data.
- Upgrades.UpgradePlugin.Load requires levels within range for the same reason.
- `LudiekFeature` is not part of this model.
  - A feature is its name and an optional pure update of its own state, and its save and load hand that state over.
  - Features reading or changing the engine during `update` or `load` is not modelled. So the order "features before `engine.load`" holds in the method, but no feature can observe it.
  - `feature.init` in the game's constructor is not modelled. Features start from given states.
- Custom extensions (every evaluator, consumer, producer and controller other than the three generator contributions) are total functions:
  - their `evaluate`, `canConsume`, `consume`, `canProduce`, `produce` and `resolve` never throw;
  - their `modify` is a fixed function of the payload. It reads neither the bonus table nor the ledger, so a bonus-adjusted copy is not modelled, and the refilled bonus table reaches no effect.
  - In the source, user code can throw in `consume` or `produce` after its `canX` passed, for example on the second of two inputs checked against the same state. This stops `handleTransaction` halfway.
- Resolution.ProduceAfterCheck, Resolution.TransactAllOrNothing, GeneratorTick.TickSucceeds and UpgradePurchase.Purchase: "no error after the checks" covers the engine's own not-found errors and the generator contributions only. That a custom effect cannot throw is an assumption of the model, not a promise of the source.
- Keys that name `Object.prototype` members (`constructor`, `toString`, `__proto__`, ...) are assumed not to occur as generator ids, upgrade ids, extension tags, bonus identities or feature names. The source looks them up on plain `{}` objects, where such keys are found through the prototype. For example, `supportsGenerator("constructor")` is true there, and `collectBonuses` throws a TypeError for a bonus identified as `"toString"`. The model's maps and records hold only own keys.
- The not-found errors (ConditionNotFound, InputNotFound, OutputNotFound, ControllerNotFound, ModifierNotFound) carry the registered tags as a set. The source's message lists `Object.keys(...)` joined by commas, in key order.
- The `modify` of the three generator contributions is the base class's, which is not part of this model. It is taken to be the identity.
- Amounts are exact `real`s: no floating-point rounding.
- Payloads hold a tag, an id and an amount, nothing else. The source's payloads are open objects: `scale` keeps every other field (`{...item, amount}`), and extensions may read fields the model does not have. A payload without an amount, such as `{ type: '/generator/activate', id }`, is represented with an arbitrary amount (0 in the scenarios). The generator contributions never read the amount (`GeneratorContributions.CanSwitchIgnoresAmount`), but an extension that treats a missing amount differently from 0 is not representable.
- The getters (`generators`, `upgradeList`, `activeBonuses`, `pluginList`, the registries' value lists, `onX` events) are not modelled separately. Where an operation iterates one of them, its key order is part of that operation's model.
- `tick`, `canBuyUpgrade` and `buyUpgrade` take the engine that hosts the plugin as a parameter, instead of reaching it through the plugin base class.
- Upgrades.UpgradePlugin.GetCost returns no cost at the maximum level, where the source reads past the end of the cost list and gets `undefined`. `canBuyUpgrade` never asks for that cost.
