/** The engine object (packages/ludiek/src/engine/LudiekEngine.ts): five
    registries of extensions, the bonus table, and the plugins it hosts. This
    model hosts exactly the generator plugin and the upgrade plugin, in that
    order; the state of every other plugin is the ledger. */
module Engine {
  import opened Values
  import opened Records
  import opened Generators
  import opened Upgrades
  import opened Extensions
  import opened Resolution
  import opened Bonuses
  import GeneratorContributions

  /** What one plugin saves. */
  datatype PluginData = GeneratorData(isActive: ActiveFlags) | UpgradeData(levels: Levels)

  /** `LudiekEngineSaveData`: plugin name to that plugin's data. */
  type EngineSave = map<string, PluginData>

  /** The extensions an engine is configured with, registered in this order. */
  datatype Config = Config(
    evaluators: seq<Evaluator>,
    consumers: seq<Consumer>,
    producers: seq<Producer>,
    controllers: seq<Controller>,
    modifiers: seq<Modifier>)

  class LudiekEngine {
    const generator: GeneratorPlugin
    const upgrade: UpgradePlugin
    var evaluators: map<string, Evaluator>
    var consumers: map<string, Consumer>
    var producers: map<string, Producer>
    var controllers: map<string, Controller>
    var modifiers: map<string, Modifier>
    var activeBonuses: Table
    var ledger: Ledger

    ghost predicate Valid()
      reads this`evaluators, this`consumers, this`producers, this`controllers, this`modifiers, this`activeBonuses, generator, upgrade
    {
      && generator.Valid()
      && upgrade.Valid()
      && Keyed(Reg())
      && activeBonuses.Valid()
    }

    function Reg(): Registry
      reads this`evaluators, this`consumers, this`producers, this`controllers, this`modifiers
    {
      Registry(evaluators, consumers, producers, controllers, modifiers)
    }

    /** Everything extensions can read or change. */
    function Now(): World
      reads this`ledger, generator
    {
      World(ledger, generator.generators, generator.isActive)
    }

    /** `new LudiekEngine(config, state)`: each configured extension is
        registered in turn, and `state` seeds the bonus table. */
    constructor (config: Config, generator: GeneratorPlugin, upgrade: UpgradePlugin, state: Table, ledger: Ledger)
      requires generator.Valid() && upgrade.Valid() && state.Valid()
      ensures Valid()
      ensures this.generator == generator && this.upgrade == upgrade
      ensures evaluators == Index(config.evaluators, (e: Evaluator) => e.Tag())
      ensures consumers == Index(config.consumers, (c: Consumer) => c.tag)
      ensures producers == Index(config.producers, (p: Producer) => p.Tag())
      ensures controllers == Index(config.controllers, (c: Controller) => c.tag)
      ensures modifiers == Index(config.modifiers, (m: Modifier) => m.tag)
      ensures activeBonuses == state && this.ledger == ledger
    {
      var ev := Index(config.evaluators, (e: Evaluator) => e.Tag());
      var co := Index(config.consumers, (c: Consumer) => c.tag);
      var pr := Index(config.producers, (p: Producer) => p.Tag());
      var ct := Index(config.controllers, (c: Controller) => c.tag);
      var mo := Index(config.modifiers, (m: Modifier) => m.tag);
      assert Keyed(Registry(ev, co, pr, ct, mo)) by {
        assert forall t :: t in ev ==> ev[t].Tag() == t;
        assert forall t :: t in co ==> co[t].tag == t;
        assert forall t :: t in pr ==> pr[t].Tag() == t;
        assert forall t :: t in ct ==> ct[t].tag == t;
        assert forall t :: t in mo ==> mo[t].tag == t;
      }
      this.generator := generator;
      this.upgrade := upgrade;
      evaluators, consumers, producers, controllers, modifiers := ev, co, pr, ct, mo;
      activeBonuses := state;
      this.ledger := ledger;
    }

    /** `registerEvaluator`: stored under its tag, replacing any evaluator
        registered under that tag before; nothing else changes. */
    method RegisterEvaluator(e: Evaluator)
      requires Valid()
      modifies this
      ensures Valid()
      ensures Reg() == old(Reg()).(evaluators := old(evaluators)[e.Tag() := e])
      ensures activeBonuses == old(activeBonuses) && ledger == old(ledger)
    {
      evaluators := evaluators[e.Tag() := e];
    }

    /** `registerConsumer` */
    method RegisterConsumer(c: Consumer)
      requires Valid()
      modifies this
      ensures Valid()
      ensures Reg() == old(Reg()).(consumers := old(consumers)[c.tag := c])
      ensures activeBonuses == old(activeBonuses) && ledger == old(ledger)
    {
      consumers := consumers[c.tag := c];
    }

    /** `registerProducer` */
    method RegisterProducer(p: Producer)
      requires Valid()
      modifies this
      ensures Valid()
      ensures Reg() == old(Reg()).(producers := old(producers)[p.Tag() := p])
      ensures activeBonuses == old(activeBonuses) && ledger == old(ledger)
    {
      producers := producers[p.Tag() := p];
    }

    /** `registerController` */
    method RegisterController(c: Controller)
      requires Valid()
      modifies this
      ensures Valid()
      ensures Reg() == old(Reg()).(controllers := old(controllers)[c.tag := c])
      ensures activeBonuses == old(activeBonuses) && ledger == old(ledger)
    {
      controllers := controllers[c.tag := c];
    }

    /** `registerModifier` */
    method RegisterModifier(m: Modifier)
      requires Valid()
      modifies this
      ensures Valid()
      ensures Reg() == old(Reg()).(modifiers := old(modifiers)[m.tag := m])
      ensures activeBonuses == old(activeBonuses) && ledger == old(ledger)
    {
      modifiers := modifiers[m.tag := m];
    }

    /** `evaluate(condition)`: true iff every item passes on the current registries and
        state; otherwise the verdict of the first item that does not. */
    function Evaluate(conditions: Items): (r: Result<bool>)
      reads this, generator
      ensures var xs := conditions.Normalized();
              r == Ok(true) <==> forall i :: 0 <= i < |xs| ==> EvaluateOne(Reg(), Now(), xs[i]) == Ok(true)
      ensures var xs := conditions.Normalized();
              r != Ok(true) ==>
                exists i :: 0 <= i < |xs| && EvaluateOne(Reg(), Now(), xs[i]) == r && forall j :: 0 <= j < i ==> EvaluateOne(Reg(), Now(), xs[j]) == Ok(true)
    {
      Resolution.Evaluate(Reg(), Now(), conditions)
    }

    /** `canConsume(input)`: true iff every item passes on the current registries and
        state; otherwise the verdict of the first item that does not. */
    function CanConsume(input: Items): (r: Result<bool>)
      reads this, generator
      ensures var xs := input.Normalized();
              r == Ok(true) <==> forall i :: 0 <= i < |xs| ==> CanConsumeOne(Reg(), Now(), xs[i]) == Ok(true)
      ensures var xs := input.Normalized();
              r != Ok(true) ==>
                exists i :: 0 <= i < |xs| && CanConsumeOne(Reg(), Now(), xs[i]) == r && forall j :: 0 <= j < i ==> CanConsumeOne(Reg(), Now(), xs[j]) == Ok(true)
    {
      Resolution.CanConsume(Reg(), Now(), input)
    }

    /** `canProduce(output)`: true iff every item passes on the current registries and
        state; otherwise the verdict of the first item that does not. */
    function CanProduce(output: Items): (r: Result<bool>)
      reads this, generator
      ensures var xs := output.Normalized();
              r == Ok(true) <==> forall i :: 0 <= i < |xs| ==> CanProduceOne(Reg(), Now(), xs[i]) == Ok(true)
      ensures var xs := output.Normalized();
              r != Ok(true) ==>
                exists i :: 0 <= i < |xs| && CanProduceOne(Reg(), Now(), xs[i]) == r && forall j :: 0 <= j < i ==> CanProduceOne(Reg(), Now(), xs[j]) == Ok(true)
    {
      Resolution.CanProduce(Reg(), Now(), output)
    }

    /** One more input, after the inputs before it were consumed without error. */
    method ConsumeNext(ghost start: World, xs: seq<Payload>, i: nat) returns (r: Outcome)
      requires Valid() && i < |xs|
      requires var e := ConsumeAll(Reg(), start, xs[..i]);
               e.error.None? && Now() == e.world
      modifies this`ledger
      ensures Valid() && Reg() == old(Reg()) && activeBonuses == old(activeBonuses)
      ensures var e := ConsumeAll(old(Reg()), start, xs[..i + 1]);
              && Now() == e.world
              && (r.Fail? <==> e.error.Some?)
              && (r.Fail? ==> r.error == e.error.value)
    {
      ConsumeAllSnoc(Reg(), start, xs, i);
      var x := xs[i];
      match GetConsumer(Reg(), x.tag) {
        case Err(e) =>
          return Fail(e);
        case Ok(consumer) =>
          ledger := consumer.consume(ledger, consumer.rewrite(x));
          return Pass;
      }
    }

    /** `consume(input)`: each input in turn, without checking it can be
        consumed; an unregistered tag throws and leaves the earlier inputs consumed. */
    method Consume(input: Items) returns (r: Outcome)
      requires Valid()
      modifies this`ledger
      ensures Valid() && Reg() == old(Reg()) && activeBonuses == old(activeBonuses)
      ensures var e := ConsumeAll(old(Reg()), old(Now()), input.Normalized());
              && Now() == e.world
              && (r.Fail? <==> e.error.Some?)
              && (r.Fail? ==> r.error == e.error.value)
    {
      var xs := input.Normalized();
      ghost var start, reg := Now(), Reg();
      var i := 0;
      r := Pass;
      while i < |xs| && r.Pass?
        invariant 0 <= i <= |xs|
        invariant Valid() && Reg() == reg && activeBonuses == old(activeBonuses)
        invariant Now() == ConsumeAll(reg, start, xs[..i]).world
        invariant r.Fail? <==> ConsumeAll(reg, start, xs[..i]).error.Some?
        invariant r.Fail? ==> r.error == ConsumeAll(reg, start, xs[..i]).error.value
      {
        r := ConsumeNext(start, xs, i);
        i := i + 1;
      }
      if r.Fail? {
        ConsumeAllStops(reg, start, xs, i);
      } else {
        assert xs[..i] == xs;
      }
    }

    /** Producing one output: look up its producer, rewrite the output, and
        let the producer act on it. */
    method ProduceOne(x: Payload) returns (r: Outcome)
      requires generator.Valid()
      modifies this`ledger, generator
      ensures generator.Valid() && Reg() == old(Reg()) && activeBonuses == old(activeBonuses)
      ensures var e := ProduceStep(old(Reg()), old(Now()), x);
              && Now() == e.world
              && generator.events == old(generator.events) + e.events
              && (r.Fail? <==> e.error.Some?)
              && (r.Fail? ==> r.error == e.error.value)
    {
      match GetProducer(Reg(), x.tag) {
        case Err(e) =>
          return Fail(e);
        case Ok(producer) =>
          var y := producer.Modify(x);
          match producer {
            case ActivateGenerator =>
              r := GeneratorContributions.ProduceActivate(generator, y);
            case DeactivateGenerator =>
              r := GeneratorContributions.ProduceDeactivate(generator, y);
            case CustomProducer(_, _, _, produce) =>
              ledger := produce(ledger, y);
              r := Pass;
          }
      }
    }

    /** One more output, after the outputs before it produced without error. */
    method ProduceNext(ghost start: World, ghost events0: seq<GeneratorEvent>, xs: seq<Payload>, i: nat) returns (r: Outcome)
      requires Valid() && i < |xs|
      requires var e := ProduceAll(Reg(), start, xs[..i]);
               e.error.None? && Now() == e.world && generator.events == events0 + e.events
      modifies this`ledger, generator
      ensures Valid() && Reg() == old(Reg()) && activeBonuses == old(activeBonuses)
      ensures var e := ProduceAll(old(Reg()), start, xs[..i + 1]);
              && Now() == e.world
              && generator.events == events0 + e.events
              && (r.Fail? <==> e.error.Some?)
              && (r.Fail? ==> r.error == e.error.value)
    {
      ghost var front := ProduceAll(Reg(), start, xs[..i]);
      ProduceAllSnoc(Reg(), start, xs, i);
      r := ProduceOne(xs[i]);
      AppendAssoc(events0, front.events, ProduceStep(old(Reg()), old(Now()), xs[i]).events);
    }

    /** `produce(output)`: each output in turn, without checking it can be
        produced. A throw leaves the earlier outputs produced. */
    method Produce(output: Items) returns (r: Outcome)
      requires Valid()
      modifies this`ledger, generator
      ensures Valid() && Reg() == old(Reg()) && activeBonuses == old(activeBonuses)
      ensures var e := ProduceAll(old(Reg()), old(Now()), output.Normalized());
              && Now() == e.world
              && generator.events == old(generator.events) + e.events
              && (r.Fail? <==> e.error.Some?)
              && (r.Fail? ==> r.error == e.error.value)
    {
      var xs := output.Normalized();
      ghost var start, reg, events0 := Now(), Reg(), generator.events;
      var i := 0;
      r := Pass;
      while i < |xs| && r.Pass?
        invariant 0 <= i <= |xs|
        invariant Valid() && Reg() == reg && activeBonuses == old(activeBonuses)
        invariant Now() == ProduceAll(reg, start, xs[..i]).world
        invariant generator.events == events0 + ProduceAll(reg, start, xs[..i]).events
        invariant r.Fail? <==> ProduceAll(reg, start, xs[..i]).error.Some?
        invariant r.Fail? ==> r.error == ProduceAll(reg, start, xs[..i]).error.value
      {
        r := ProduceNext(start, events0, xs, i);
        i := i + 1;
      }
      if r.Fail? {
        ProduceAllStops(reg, start, xs, i);
      } else {
        assert xs[..i] == xs;
      }
    }

    /** The effect phase of `handleTransaction`. */
    method ApplyTransaction(tx: Transaction) returns (r: Outcome)
      requires Valid()
      modifies this`ledger, generator
      ensures Valid() && Reg() == old(Reg()) && activeBonuses == old(activeBonuses)
      ensures var e := Apply(old(Reg()), old(Now()), tx);
              && Now() == e.world
              && generator.events == old(generator.events) + e.events
              && (r.Fail? <==> e.error.Some?)
              && (r.Fail? ==> r.error == e.error.value)
    {
      ghost var w, reg := Now(), Reg();
      ghost var consumed := if tx.input.Some? then ConsumeAll(reg, w, tx.input.value.Normalized()) else Effect(w, [], None);
      if tx.input.Some? {
        r := Consume(tx.input.value);
        if r.Fail? {
          assert Apply(reg, w, tx) == consumed;
          return;
        }
      }
      assert Now() == consumed.world;
      assert consumed.events == [];
      assert consumed.error.None?;
      if tx.output.Some? {
        r := Produce(tx.output.value);
        ghost var produced := ProduceAll(reg, consumed.world, tx.output.value.Normalized());
        assert consumed.events + produced.events == produced.events;
        assert Apply(reg, w, tx) == produced;
        return;
      }
      assert Apply(reg, w, tx) == consumed;
      return Pass;
    }

    /** `handleTransaction(tx)`: the requirement, the input and the output are
        checked first; only if all pass is the input consumed and then the
        output produced. */
    method HandleTransaction(tx: Transaction) returns (r: Result<bool>)
      requires Valid()
      modifies this`ledger, generator
      ensures Valid() && Reg() == old(Reg()) && activeBonuses == old(activeBonuses)
      ensures var run := Transact(old(Reg()), old(Now()), tx);
              && r == run.result
              && Now() == run.effect.world
              && generator.events == old(generator.events) + run.effect.events
    {
      var checked := Check(Reg(), Now(), tx);
      if checked != Ok(true) {
        return checked;
      }
      var applied := ApplyTransaction(tx);
      return if applied.Fail? then Err(applied.error) else Ok(true);
    }

    /** `request(request)`: its controller resolves it, or ControllerNotFoundError. */
    method Request(request: Payload) returns (r: Outcome)
      requires Valid()
      modifies this`ledger
      ensures Valid() && Reg() == old(Reg()) && activeBonuses == old(activeBonuses)
      ensures match Resolution.Request(old(Reg()), old(Now()), request)
              case Err(e) => r == Fail(e) && ledger == old(ledger)
              case Ok(w) => r == Pass && Now() == w
    {
      match GetController(Reg(), request.tag)
      case Err(e) =>
        return Fail(e);
      case Ok(controller) =>
        ledger := controller.resolve(ledger, request);
        return Pass;
    }

    /** `getBonus(bonus)`: ModifierNotFound for an unregistered tag, otherwise
        the modifier's reduction of every contribution in the active bonus
        table under the bonus's identity. */
    function GetBonus(bonus: Payload): (r: Result<real>)
      requires Valid()
      reads this, generator, upgrade
      ensures r.Err? <==> bonus.tag !in modifiers
      ensures r.Err? ==> r.error == ModifierNotFound(bonus.tag, modifiers.Keys)
      ensures r.Ok? ==>
                var m := modifiers[bonus.tag];
                var values := Gather(activeBonuses.Order(), activeBonuses.entries, m.stringify(bonus));
                match m.variant
                case Additive => r.value == m.default + Sum(values)
                case Multiplicative => r.value == m.default * Growth(values)
                case UnknownVariant(_) => r.value == 0.0
    {
      Bonuses.GetBonus(Reg(), activeBonuses, bonus)
    }

    /** The bonus table and outcome `collectBonuses()` leaves when it starts
        from registries `reg` and table `table` and the plugins publish
        `bonuses`: the table Collect gives, and a failure exactly when
        grouping the bonuses threw, with that error. */
    ghost predicate Collected(reg: Registry, table: Table, bonuses: seq<Payload>, r: Outcome)
      reads this`activeBonuses
    {
      var c := Collect(reg, table, bonuses);
      && activeBonuses == c.0
      && (r.Fail? <==> c.1.Some?)
      && (r.Fail? ==> r.error == c.1.value)
    }

    /** `collectBonuses()`, through `preTick()`: the plugin slots are reset and
        refilled from the plugins' current bonuses. A modifier that is not
        registered throws, leaving the bonuses grouped so far in the table. */
    method PreTick() returns (r: Outcome)
      requires Valid()
      modifies this`activeBonuses
      ensures Valid() && Reg() == old(Reg()) && ledger == old(ledger)
      ensures Collected(old(Reg()), old(activeBonuses), upgrade.GetBonuses(), r)
    {
      var bonuses := upgrade.GetBonuses();
      var slot, error := GroupBonuses(Reg(), bonuses);
      activeBonuses := Refill(activeBonuses, slot);
      return if error.Some? then Fail(error.value) else Pass;
    }

    /** What the plugin called `name` saves. */
    function StateOf(name: string): PluginData
      reads this, generator, upgrade
    {
      if name == "generator" then GeneratorData(generator.Save()) else UpgradeData(upgrade.Save())
    }

    /** `save()`: one entry per plugin, keyed by its name, holding what that plugin saves. */
    method Save() returns (data: EngineSave)
      requires Valid()
      ensures data.Keys == set n | n in PluginNames
      ensures data["generator"] == GeneratorData(generator.isActive)
      ensures data["upgrade"] == UpgradeData(upgrade.levels)
    {
      data := map[];
      for i := 0 to |PluginNames|
        invariant data.Keys == set j | 0 <= j < i :: PluginNames[j]
        invariant forall n :: n in data ==> data[n] == StateOf(n)
      {
        data := data[PluginNames[i] := StateOf(PluginNames[i])];
      }
    }

    /** Save data each plugin can take: the right kind per name, well-formed
        flags, and upgrade levels within range. */
    ghost predicate Loadable(data: EngineSave)
      reads this, upgrade
    {
      && ("generator" in data ==> data["generator"].GeneratorData? && data["generator"].isActive.Valid())
      && ("upgrade" in data ==> data["upgrade"].UpgradeData? && LevelsInRange(upgrade.upgrades.entries, data["upgrade"].levels))
    }

    /** What `save()` returns can be loaded back; by the contract of `Load`,
        loading it into this engine, or one with the same upgrades, restores
        the active flags and the levels. */
    lemma SaveLoadable(data: EngineSave)
      requires Valid()
      requires data.Keys == set n | n in PluginNames
      requires data["generator"] == GeneratorData(generator.isActive)
      requires data["upgrade"] == UpgradeData(upgrade.levels)
      ensures Loadable(data)
    {
    }

    /** `load(data)`: each plugin with an entry loads it; a plugin without one
        keeps its state. */
    method Load(data: EngineSave)
      requires Valid() && Loadable(data)
      modifies generator, upgrade
      ensures Valid()
      ensures generator.generators == old(generator.generators) && generator.events == old(generator.events)
      ensures upgrade.upgrades == old(upgrade.upgrades) && upgrade.events == old(upgrade.events)
      ensures generator.isActive == if "generator" in data then data["generator"].isActive else old(generator.isActive)
      ensures upgrade.levels == if "upgrade" in data then data["upgrade"].levels else old(upgrade.levels)
    {
      for i := 0 to |PluginNames|
        invariant Valid()
        invariant generator.generators == old(generator.generators) && generator.events == old(generator.events)
        invariant upgrade.upgrades == old(upgrade.upgrades) && upgrade.events == old(upgrade.events)
        invariant generator.isActive == if "generator" in data && i > 0 then data["generator"].isActive else old(generator.isActive)
        invariant upgrade.levels == if "upgrade" in data && i > 1 then data["upgrade"].levels else old(upgrade.levels)
      {
        var name := PluginNames[i];
        if name in data {
          match data[name]
          case GeneratorData(isActive) =>
            generator.Load(isActive);
          case UpgradeData(levels) =>
            upgrade.Load(levels);
        }
      }
    }
  }

  /** The inner loop of `collectBonuses`: each bonus in turn is pushed onto
      the list of its identity, until a modifier is missing. */
  method GroupBonuses(reg: Registry, bonuses: seq<Payload>) returns (slot: Slot, error: Option<Error>)
    ensures Grouping(slot, error) == Group(reg, map[], bonuses)
  {
    slot := map[];
    var i := 0;
    while i < |bonuses|
      invariant 0 <= i <= |bonuses|
      invariant Group(reg, map[], bonuses[..i]) == Grouping(slot, None)
    {
      assert bonuses[..i + 1][..i] == bonuses[..i];
      var b := bonuses[i];
      match GetModifier(reg, b.tag) {
        case Err(e) =>
          GroupStopsAt(reg, map[], bonuses, i);
          return slot, Some(e);
        case Ok(modifier) =>
          var id := modifier.stringify(b);
          slot := slot[id := Lookup(slot, id) + [b]];
      }
      i := i + 1;
    }
    assert bonuses[..i] == bonuses;
    return slot, None;
  }
}
