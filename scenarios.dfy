/** Situations from the generator plugin's test suite
    (packages/ludiek/tests/plugins/generator/generator-plugin-events.spec.ts),
    the contribution demo (examples/contribution-pattern-demo.ts:195-213) and
    worked bonus arithmetic, stated over the model's functions. */
module Scenarios {
  import opened Values
  import opened Records
  import opened Generators
  import opened Extensions
  import opened Resolution
  import opened Bonuses
  import opened GeneratorTick
  import GeneratorContributions

  /** An evaluator for `/condition/false`: never holds. */
  const FalseCondition: Evaluator := CustomEvaluator("/condition/false", p => p, (l, p) => false)

  /** A producer for `/output/always`: can always produce, and adds the amount under the payload's id. */
  const AlwaysOutput: Producer :=
    CustomProducer("/output/always", p => p, (l, p) => true,
                   (l: Ledger, p: Payload) => l[p.id := (if p.id in l then l[p.id] else 0.0) + p.amount])

  function Registered(evaluators: map<string, Evaluator>): Registry
  {
    Registry(evaluators, map[], map["/output/always" := AlwaysOutput], map[], map[])
  }

  function Gold(conditions: Option<Items>): GeneratorDefinition
  {
    GeneratorDefinition("gold-generator", One(Payload("/output/always", "gold", 10.0)), None, conditions)
  }

  function Active(g: GeneratorDefinition): World
  {
    World(map[], map[g.id := g], Record([g.id], map[g.id := true]))
  }

  /** A generator whose condition is false fails its turn with
      `conditions_not_met` and produces nothing. */
  lemma ConditionsNotMetScenario()
    ensures var g := Gold(Some(One(Payload("/condition/false", "", 0.0))));
            var reg := Registered(map["/condition/false" := FalseCondition]);
            TickAll(reg, Active(g), Entries(Active(g).isActive), 1.0) ==
              Effect(Active(g), [TickFailed("gold-generator", ConditionsNotMet)], None)
  {
    var g := Gold(Some(One(Payload("/condition/false", "", 0.0))));
    var flags := Entries(Active(g).isActive);
    assert flags == [("gold-generator", true)];
    assert flags[..0] == [];
  }

  /** A generator with no condition and no input produces its output scaled
      by the tick's length, and reports the tick. */
  lemma ProducesScaledOutputScenario()
    ensures var g := Gold(None);
            var reg := Registered(map[]);
            var e := TickAll(reg, Active(g), Entries(Active(g).isActive), 0.5);
            && e.error.None?
            && e.world.ledger == map["gold" := 5.0]
            && e.events == [Ticked("gold-generator", g, 0.5, None, One(Payload("/output/always", "gold", 5.0)))]
  {
    var g := Gold(None);
    var flags := Entries(Active(g).isActive);
    assert flags == [("gold-generator", true)];
    assert flags[..0] == [];
    var xs := One(Payload("/output/always", "gold", 5.0)).Normalized();
    assert xs[..0] == [];
  }

  /** An inactive generator takes no turn at all. */
  lemma InactiveScenario()
    ensures var g := Gold(None);
            var w := World(map[], map[g.id := g], Record([g.id], map[g.id := false]));
            TickAll(Registered(map[]), w, Entries(w.isActive), 1.0) == Effect(w, [], None)
  {
    var g := Gold(None);
    var w := World(map[], map[g.id := g], Record([g.id], map[g.id := false]));
    TickAllIdle(Registered(map[]), w, Entries(w.isActive), 1.0);
  }

  /** A modifier keyed by the bonus's id. */
  function ByName(tag: string, variant: Variant): Modifier
  {
    Modifier(tag, variant, 1.0, (p: Payload) => p.id)
  }

  /** The plugin names are not array indices, so the bonus table lists its
      slots in insertion order. */
  lemma PluginSlotsInOrder(table: Bonuses.Table)
    requires table.keys == ["generator", "upgrade"]
    ensures table.Order() == table.keys
  {
    assert !IsIndex(table.keys[0]) && !IsIndex(table.keys[1]);
    assert forall k :: k in table.keys ==> k == table.keys[0] || k == table.keys[1];
    table.OrderPlain();
  }

  /** Two additive contributions of 2 and 3 on a default of 1 give 6. */
  lemma AdditiveScenario()
    ensures var reg := Registry(map[], map[], map[], map[], map["/bonus/add" := ByName("/bonus/add", Additive)]);
            var table := Record(["generator", "upgrade"], map["generator" := map[], "upgrade" := map["speed" := [Payload("/bonus/add", "speed", 2.0), Payload("/bonus/add", "speed", 3.0)]]]);
            GetBonus(reg, table, Payload("/bonus/add", "speed", 0.0)) == Ok(6.0)
  {
    var table := Record(["generator", "upgrade"], map["generator" := map[], "upgrade" := map["speed" := [Payload("/bonus/add", "speed", 2.0), Payload("/bonus/add", "speed", 3.0)]]]);
    assert Distinct(table.keys) by {
      assert table.keys[..1] == ["generator"];
      assert table.keys[..1][..0] == [];
    }
    var vs := [Payload("/bonus/add", "speed", 2.0), Payload("/bonus/add", "speed", 3.0)];
    PluginSlotsInOrder(table);
    assert table.keys[1..][1..] == [];
    assert Gather(table.keys, table.entries, "speed") == vs;
    assert vs[1..][1..] == [];
  }

  /** Two multiplicative contributions of 0.5 and 1 on a default of 1 give 3. */
  lemma MultiplicativeScenario()
    ensures var reg := Registry(map[], map[], map[], map[], map["/bonus/mul" := ByName("/bonus/mul", Multiplicative)]);
            var table := Record(["generator", "upgrade"], map["generator" := map[], "upgrade" := map["speed" := [Payload("/bonus/mul", "speed", 0.5), Payload("/bonus/mul", "speed", 1.0)]]]);
            GetBonus(reg, table, Payload("/bonus/mul", "speed", 0.0)) == Ok(3.0)
  {
    var table := Record(["generator", "upgrade"], map["generator" := map[], "upgrade" := map["speed" := [Payload("/bonus/mul", "speed", 0.5), Payload("/bonus/mul", "speed", 1.0)]]]);
    assert Distinct(table.keys) by {
      assert table.keys[..1] == ["generator"];
      assert table.keys[..1][..0] == [];
    }
    var vs := [Payload("/bonus/mul", "speed", 0.5), Payload("/bonus/mul", "speed", 1.0)];
    PluginSlotsInOrder(table);
    assert table.keys[1..][1..] == [];
    assert Gather(table.keys, table.entries, "speed") == vs;
    assert vs[1..][1..] == [];
  }

  /** A transaction whose output activates a generator that was never loaded
      fails its output check: it returns false and changes nothing. */
  lemma ActivateUnknownRefused(reg: Registry, w: World, id: string, amount: real)
    requires GeneratorContributions.ActivateTag in reg.producers
    requires reg.producers[GeneratorContributions.ActivateTag] == ActivateGenerator
    requires !Supports(w.generators, id)
    ensures var tx := Transaction(None, None, Some(One(Payload(GeneratorContributions.ActivateTag, id, amount))));
            Transact(reg, w, tx) == Run(Ok(false), Effect(w, [], None))
  {
    var x := Payload(GeneratorContributions.ActivateTag, id, amount);
    assert CanProduceOne(reg, w, x) == Ok(false);
    assert One(x).Normalized() == [x];
  }

  /** The demo's transaction "if the generator is active, deactivate it":
      the first run deactivates it and reports the deactivation; run again,
      its requirement fails, so it returns false and changes nothing. */
  lemma DeactivateOnce(reg: Registry, w: World, id: string)
    requires Keyed(reg)
    requires GeneratorContributions.IsActiveTag in reg.evaluators && reg.evaluators[GeneratorContributions.IsActiveTag] == IsGeneratorActive
    requires GeneratorContributions.DeactivateTag in reg.producers && reg.producers[GeneratorContributions.DeactivateTag] == DeactivateGenerator
    requires w.isActive.Valid() && Supports(w.generators, id) && IsOn(w.isActive, id)
    ensures var tx := Transaction(Some(One(Payload(GeneratorContributions.IsActiveTag, id, 0.0))), None,
                                  Some(One(Payload(GeneratorContributions.DeactivateTag, id, 0.0))));
            var first := Transact(reg, w, tx);
            var second := Transact(reg, first.effect.world, tx);
            && first.result == Ok(true)
            && !IsOn(first.effect.world.isActive, id)
            && first.effect.events == [Deactivated(id, w.generators[id])]
            && second == Run(Ok(false), Effect(first.effect.world, [], None))
  {
    var condition := Payload(GeneratorContributions.IsActiveTag, id, 0.0);
    var output := Payload(GeneratorContributions.DeactivateTag, id, 0.0);
    var tx := Transaction(Some(One(condition)), None, Some(One(output)));
    assert One(condition).Normalized() == [condition];
    assert One(output).Normalized() == [output];
    assert [output][..0] == [];
    assert EvaluateOne(reg, w, condition) == Ok(true);
    assert CanProduceOne(reg, w, output) == Ok(true);
    assert Check(reg, w, tx) == Ok(true);
    var s := SetActive(w.generators, w.isActive, id, false).value;
    SetActiveSwitches(w.generators, w.isActive, id, false);
    var after := w.(isActive := s.isActive);
    assert ProduceStep(reg, w, output) == Effect(after, s.emitted, None);
    assert ProduceAll(reg, w, [output]) == Effect(after, [] + s.emitted, None);
    assert Apply(reg, w, tx) == Effect(after, s.emitted, None);
    assert Transact(reg, w, tx) == Run(Ok(true), Effect(after, s.emitted, None));
    GeneratorContributions.EvaluateAfterSwitch(w.generators, w.isActive, id, false, condition);
    assert EvaluateOne(reg, after, condition) == Ok(false);
    assert Check(reg, after, tx) == Ok(false);
  }
}
