/** The game object (packages/ludiek/src/engine/LudiekGame.ts): the engine,
    the features, the save countdown, and the tick that drives them. */
module Game {
  import opened Values
  import opened Records
  import opened Resolution
  import opened Bonuses
  import opened Engine

  /** What a feature saves and loads. */
  type FeatureState = map<string, real>

  /** Each feature's current state, by feature name. */
  type FeatureStates = map<string, FeatureState>

  /** A feature: its name and, if it has one, its `update(delta)`. */
  datatype Feature = Feature(name: string, update: Option<(FeatureState, real) -> FeatureState>)

  /** `LudiekGameConfig`, without the storage key and tick length. */
  datatype GameConfig = GameConfig(features: seq<Feature>, saveInterval: real)

  /** `LudiekSaveData`: the engine's save and each feature's, by name. */
  datatype GameSave = GameSave(engine: EngineSave, features: FeatureStates)

  /** What a tick shows the outside world, in order. */
  datatype GameEvent = FeatureUpdated(name: string) | Stored(data: GameSave) | TickNotified

  /** `Object.fromEntries(features.map(f => [f.name, f]))`: a later feature
      with the same name replaces an earlier one in the earlier one's place. */
  function Index(list: seq<Feature>): Record<Feature>
    decreases |list|
  {
    if list == [] then Empty()
    else Index(list[..|list| - 1]).Put(list[|list| - 1].name, list[|list| - 1])
  }

  /** Every listed feature is filed under its own name, and nothing else is. */
  predicate KeyedByName(features: map<string, Feature>)
  {
    forall k :: k in features ==> features[k].name == k
  }

  /** Some feature of the list is named `k`. */
  predicate Listed(list: seq<Feature>, k: string)
  {
    exists i :: 0 <= i < |list| && list[i].name == k
  }

  /** A name is listed iff the last feature has it or one before it does. */
  lemma ListedSnoc(list: seq<Feature>, k: string)
    requires list != []
    ensures Listed(list, k) <==> Listed(list[..|list| - 1], k) || list[|list| - 1].name == k
  {
    var n := |list| - 1;
    if Listed(list, k) && list[n].name != k {
      var i :| 0 <= i < |list| && list[i].name == k;
      assert list[..n][i].name == k;
    }
    if Listed(list[..n], k) {
      var i :| 0 <= i < n && list[..n][i].name == k;
      assert list[i].name == k;
    }
  }

  lemma {:induction false} IndexKeyedByName(list: seq<Feature>)
    ensures Index(list).Valid() && KeyedByName(Index(list).entries)
    ensures forall k :: k in Index(list).entries <==> Listed(list, k)
    decreases |list|
  {
    if list != [] {
      var n := |list| - 1;
      var front := Index(list[..n]);
      IndexKeyedByName(list[..n]);
      assert Index(list).entries == front.entries[list[n].name := list[n]];
      forall k
        ensures k in Index(list).entries <==> Listed(list, k)
      {
        ListedSnoc(list, k);
      }
    }
  }

  /** The states after `feature.update?.(delta)` for each key in turn. */
  function Updated(keys: seq<string>, features: map<string, Feature>, states: FeatureStates, delta: real): FeatureStates
    decreases |keys|
  {
    if keys == [] then states
    else
      var front := Updated(keys[..|keys| - 1], features, states, delta);
      var k := keys[|keys| - 1];
      if k in features && features[k].update.Some? && k in front then front[k := features[k].update.value(front[k], delta)]
      else front
  }

  /** The updates a tick reports, in order. */
  function UpdateEvents(keys: seq<string>, features: map<string, Feature>): seq<GameEvent>
    decreases |keys|
  {
    if keys == [] then []
    else
      var k := keys[|keys| - 1];
      UpdateEvents(keys[..|keys| - 1], features) + if k in features && features[k].update.Some? then [FeatureUpdated(k)] else []
  }

  /** Each feature with an update is updated exactly once, from its own
      previous state; every other state is kept. */
  lemma {:induction false} UpdatedPointwise(keys: seq<string>, features: map<string, Feature>, states: FeatureStates, delta: real)
    requires Distinct(keys)
    ensures var r := Updated(keys, features, states, delta);
            && r.Keys == states.Keys
            && (forall k :: k in states && k !in keys ==> r[k] == states[k])
            && (forall k :: k in states && k in keys ==>
                  r[k] == if k in features && features[k].update.Some? then features[k].update.value(states[k], delta) else states[k])
    decreases |keys|
  {
    if keys != [] {
      var n := |keys| - 1;
      UpdatedPointwise(keys[..n], features, states, delta);
      forall k | k in keys
        ensures k == keys[n] || k in keys[..n]
      {
        var i :| 0 <= i < |keys| && keys[i] == k;
        if i < n {
          assert keys[..n][i] == k;
        }
      }
    }
  }

  /** The states after `feature.load(data)` for each key with saved data. */
  function Loaded(keys: seq<string>, states: FeatureStates, saved: FeatureStates): FeatureStates
    decreases |keys|
  {
    if keys == [] then states
    else
      var front := Loaded(keys[..|keys| - 1], states, saved);
      var k := keys[|keys| - 1];
      if k in saved then front[k := saved[k]] else front
  }

  /** A listed feature with saved data takes it; every other state is kept. */
  lemma {:induction false} LoadedPointwise(keys: seq<string>, states: FeatureStates, saved: FeatureStates)
    ensures var r := Loaded(keys, states, saved);
            && (forall k :: k in r <==> k in states || (k in keys && k in saved))
            && (forall k :: k in r ==> r[k] == if k in keys && k in saved then saved[k] else states[k])
    decreases |keys|
  {
    if keys != [] {
      var n := |keys| - 1;
      LoadedPointwise(keys[..n], states, saved);
      forall k | k in keys
        ensures k == keys[n] || k in keys[..n]
      {
        var i :| 0 <= i < |keys| && keys[i] == k;
        if i < n {
          assert keys[..n][i] == k;
        }
      }
      assert forall k :: k in keys[..n] ==> k in keys;
    }
  }

  /** What the features save: each listed feature's state, by name. */
  function FeatureSaves(keys: seq<string>, states: FeatureStates): (r: FeatureStates)
    ensures forall k :: k in r <==> k in keys && k in states
  {
    map k | k in keys && k in states :: states[k]
  }

  /** Loading what the features saved gives every listed feature back the
      state it saved, whatever it held in between. */
  lemma FeatureRoundTrip(keys: seq<string>, states: FeatureStates, other: FeatureStates)
    requires forall k :: k in keys ==> k in states
    ensures var r := Loaded(keys, other, FeatureSaves(keys, states));
            forall k :: k in keys ==> k in r && r[k] == states[k]
  {
    LoadedPointwise(keys, other, FeatureSaves(keys, states));
  }

  class LudiekGame {
    const engine: LudiekEngine
    const features: Record<Feature>
    /** The names in `featureList` (`Object.values(features)`): the order of
        the features object's keys, which never changes after construction. */
    const featureList: seq<string>
    const saveInterval: real
    var states: FeatureStates
    var nextSave: real
    ghost var trace: seq<GameEvent>

    ghost predicate Valid()
      reads this`states, engine, engine.generator, engine.upgrade
    {
      engine.Valid() && Filed()
    }

    /** The features are filed by name, and each has a state. */
    ghost predicate Filed()
      reads this`states
    {
      && features.Valid()
      && KeyedByName(features.entries)
      && (forall k :: k in featureList <==> k in features.entries)
      && (forall k :: k in features.entries ==> k in states)
    }

    /** `new LudiekGame(engine, config)`: the features are filed by name and
        the save countdown starts at the save interval. Each feature's
        starting state is given. */
    constructor (engine: LudiekEngine, config: GameConfig, initial: FeatureStates)
      requires engine.Valid()
      requires forall i :: 0 <= i < |config.features| ==> config.features[i].name in initial
      ensures Valid()
      ensures this.engine == engine && features == Index(config.features) && featureList == features.Order()
      ensures states == initial && saveInterval == config.saveInterval && nextSave == config.saveInterval
      ensures trace == []
    {
      IndexKeyedByName(config.features);
      this.engine := engine;
      features := Index(config.features);
      featureList := Index(config.features).Order();
      Index(config.features).OrderListed();
      saveInterval := config.saveInterval;
      states := initial;
      nextSave := config.saveInterval;
      trace := [];
    }

    /** What a save holds right now. */
    function Snapshot(): GameSave
      reads this`states, engine, engine.generator, engine.upgrade
    {
      GameSave(map n | n in PluginNames :: engine.StateOf(n), FeatureSaves(featureList, states))
    }

    /** `save()`: the engine's save and each feature's, in `featureList` order. */
    method Save() returns (data: GameSave)
      requires Valid()
      ensures data == Snapshot()
    {
      var engineData := engine.Save();
      SameEngineSave(engineData);
      var featureData := SaveFeatures();
      data := GameSave(engineData, featureData);
    }

    /** The engine's save holds what each of its plugins saves. */
    lemma SameEngineSave(data: EngineSave)
      requires Valid()
      requires data.Keys == set n | n in PluginNames
      requires data["generator"] == GeneratorData(engine.generator.isActive)
      requires data["upgrade"] == UpgradeData(engine.upgrade.levels)
      ensures data == Snapshot().engine
    {
    }

    /** `feature.save()` for each feature, in `featureList` order. */
    method SaveFeatures() returns (data: FeatureStates)
      requires Filed()
      ensures data == FeatureSaves(featureList, states)
    {
      var keys := featureList;
      data := map[];
      for i := 0 to |keys|
        invariant data == FeatureSaves(keys[..i], states)
      {
        assert keys[..i + 1] == keys[..i] + [keys[i]];
        data := data[keys[i] := states[keys[i]]];
      }
      assert keys[..|keys|] == keys;
    }

    /** One more feature update, after the ones before it. */
    method UpdateNext(ghost states0: FeatureStates, ghost trace0: seq<GameEvent>, i: nat, delta: real)
      requires Filed() && i < |featureList|
      requires states == Updated(featureList[..i], features.entries, states0, delta)
      requires trace == trace0 + UpdateEvents(featureList[..i], features.entries)
      modifies this`states, this`trace
      ensures Filed() && nextSave == old(nextSave)
      ensures states == Updated(featureList[..i + 1], features.entries, states0, delta)
      ensures trace == trace0 + UpdateEvents(featureList[..i + 1], features.entries)
    {
      var keys := featureList;
      assert keys[..i + 1][..i] == keys[..i];
      var name := keys[i];
      var f := features.entries[name];
      if f.update.Some? {
        states := states[name := f.update.value(states[name], delta)];
        trace := trace + [FeatureUpdated(name)];
        AppendAssoc(trace0, UpdateEvents(keys[..i], features.entries), [FeatureUpdated(name)]);
      }
    }

    /** `tick(delta)`: the engine's pre-tick first; if it throws, nothing
        else happens. Then each feature with an update is updated, in list
        order; the countdown drops by `delta`, and once it reaches zero the
        game is saved to storage and the countdown restarts; last, the tick is
        announced. */
    method Tick(delta: real) returns (r: Outcome)
      requires Valid()
      modifies this`states, this`nextSave, this`trace, engine`activeBonuses
      ensures Valid() && engine.Reg() == old(engine.Reg()) && engine.ledger == old(engine.ledger)
      ensures engine.Collected(old(engine.Reg()), old(engine.activeBonuses), old(engine.upgrade.GetBonuses()), r)
      ensures r.Fail? ==> states == old(states) && nextSave == old(nextSave) && trace == old(trace)
      ensures r.Pass? ==> Advanced(old(states), old(nextSave), old(trace), delta)
    {
      r := engine.PreTick();
      if r.Fail? {
        return;
      }
      Proceed(delta);
    }

    /** The game after the features' updates, the countdown and the tick
        announcement, starting from the given states, countdown and trace:
        each feature updated in `featureList` order, the countdown lowered by `delta`
        and, once it reaches zero, restarted after storing the game, and the
        tick announced last. */
    ghost predicate Advanced(states0: FeatureStates, nextSave0: real, trace0: seq<GameEvent>, delta: real)
      reads this, engine, engine.generator, engine.upgrade
    {
      var countdown := nextSave0 - delta;
      && states == Updated(featureList, features.entries, states0, delta)
      && nextSave == (if countdown <= 0.0 then saveInterval else countdown)
      && trace == trace0 + UpdateEvents(featureList, features.entries)
                         + (if countdown <= 0.0 then [Stored(Snapshot())] else [])
                         + [TickNotified]
    }

    /** The tick after a pre-tick that did not throw. */
    method Proceed(delta: real)
      requires Valid()
      modifies this`states, this`nextSave, this`trace
      ensures Valid()
      ensures Advanced(old(states), old(nextSave), old(trace), delta)
    {
      UpdateFeatures(delta);
      Countdown(delta);
      trace := trace + [TickNotified];
    }

    /** `feature.update?.(delta)` for each feature, in `featureList` order. */
    method UpdateFeatures(delta: real)
      requires Filed()
      modifies this`states, this`trace
      ensures Filed() && nextSave == old(nextSave)
      ensures states == Updated(featureList, features.entries, old(states), delta)
      ensures trace == old(trace) + UpdateEvents(featureList, features.entries)
    {
      var keys := featureList;
      ghost var states0, trace0 := states, trace;
      var i := 0;
      while i < |keys|
        invariant 0 <= i <= |keys|
        invariant Filed() && nextSave == old(nextSave)
        invariant states == Updated(keys[..i], features.entries, states0, delta)
        invariant trace == trace0 + UpdateEvents(keys[..i], features.entries)
      {
        UpdateNext(states0, trace0, i, delta);
        i := i + 1;
      }
      assert keys[..i] == keys;
    }

    /** The save countdown: it drops by `delta`, and once it reaches zero the
        game is stored and the countdown restarts at the save interval. */
    method Countdown(delta: real)
      requires Valid()
      modifies this`nextSave, this`trace
      ensures Valid() && states == old(states)
      ensures var countdown := old(nextSave) - delta;
              && nextSave == (if countdown <= 0.0 then saveInterval else countdown)
              && trace == old(trace) + (if countdown <= 0.0 then [Stored(Snapshot())] else [])
    {
      nextSave := nextSave - delta;
      if nextSave <= 0.0 {
        var data := Save();
        trace := trace + [Stored(data)];
        nextSave := saveInterval;
      }
    }

    /** `load(saveData)`: no data changes nothing. Otherwise each feature
        with saved data loads it, features without are skipped, and then the
        engine loads its part. */
    method Load(data: Option<GameSave>)
      requires Valid() && (data.Some? ==> engine.Loadable(data.value.engine))
      modifies this, engine.generator, engine.upgrade
      ensures Valid() && nextSave == old(nextSave) && trace == old(trace)
      ensures engine.generator.generators == old(engine.generator.generators) && engine.generator.events == old(engine.generator.events)
      ensures engine.upgrade.upgrades == old(engine.upgrade.upgrades) && engine.upgrade.events == old(engine.upgrade.events)
      ensures data.None? ==>
                && states == old(states)
                && engine.generator.isActive == old(engine.generator.isActive)
                && engine.upgrade.levels == old(engine.upgrade.levels)
      ensures data.Some? ==>
                var d := data.value;
                && states == Loaded(featureList, old(states), d.features)
                && engine.generator.isActive == (if "generator" in d.engine then d.engine["generator"].isActive else old(engine.generator.isActive))
                && engine.upgrade.levels == (if "upgrade" in d.engine then d.engine["upgrade"].levels else old(engine.upgrade.levels))
    {
      if data.None? {
        return;
      }
      LoadFeatures(data.value.features);
      engine.Load(data.value.engine);
    }

    /** `feature.load(data)` for each feature with saved data, in `featureList` order. */
    method LoadFeatures(saved: FeatureStates)
      requires Filed()
      modifies this`states
      ensures Filed() && nextSave == old(nextSave) && trace == old(trace)
      ensures states == Loaded(featureList, old(states), saved)
    {
      var keys := featureList;
      for i := 0 to |keys|
        invariant Filed() && nextSave == old(nextSave) && trace == old(trace)
        invariant states == Loaded(keys[..i], old(states), saved)
      {
        assert keys[..i + 1][..i] == keys[..i];
        var name := keys[i];
        if name in saved {
          states := states[name := saved[name]];
        }
      }
      assert keys[..|keys|] == keys;
    }

    /** `evaluate(condition)`: true exactly when every condition is true,
        through the engine. */
    function Evaluate(conditions: Items): (r: Result<bool>)
      reads this, engine, engine.generator
      ensures r == Resolution.Evaluate(engine.Reg(), engine.Now(), conditions)
      ensures r == Ok(true) <==>
                forall i :: 0 <= i < |conditions.Normalized()| ==>
                  EvaluateOne(engine.Reg(), engine.Now(), conditions.Normalized()[i]) == Ok(true)
    {
      engine.Evaluate(conditions)
    }

    /** `handleTransaction(transaction)`, through the engine. */
    method HandleTransaction(tx: Transaction) returns (r: Result<bool>)
      requires Valid()
      modifies engine, engine.generator
      ensures Valid() && states == old(states) && nextSave == old(nextSave)
      ensures engine.Reg() == old(engine.Reg()) && engine.activeBonuses == old(engine.activeBonuses)
      ensures var run := Transact(old(engine.Reg()), old(engine.Now()), tx);
              && r == run.result
              && engine.Now() == run.effect.world
              && engine.generator.events == old(engine.generator.events) + run.effect.events
    {
      r := engine.HandleTransaction(tx);
    }

    /** `request(request)`, through the engine. */
    method Request(request: Payload) returns (r: Outcome)
      requires Valid()
      modifies engine
      ensures Valid() && states == old(states) && nextSave == old(nextSave)
      ensures engine.Reg() == old(engine.Reg()) && engine.activeBonuses == old(engine.activeBonuses)
      ensures match Resolution.Request(old(engine.Reg()), old(engine.Now()), request)
              case Err(e) => r == Fail(e) && engine.ledger == old(engine.ledger)
              case Ok(w) => r == Pass && engine.Now() == w
    {
      r := engine.Request(request);
    }
  }

  /** Saving and then loading gives every feature back the state it saved. */
  lemma SaveLoadRestoresFeatures(game: LudiekGame, other: FeatureStates)
    requires game.Valid()
    ensures var r := Loaded(game.featureList, other, game.Snapshot().features);
            forall k :: k in game.features.entries ==> k in r && r[k] == game.states[k]
  {
    FeatureRoundTrip(game.featureList, game.states, other);
  }
}
