/** The engine's five kinds of extension and the registries that hold them
    (packages/ludiek/src/engine/LudiekEngine.ts). An extension is known by the
    tag it handles; the generator contributions are concrete variants, every
    other extension is abstract: its behaviour is a function over the state
    of the plugins this model does not include, the `Ledger`. Abstract
    operations never throw, and their `rewrite` (the source's `modify`)
    depends on the payload alone. */
module Extensions {
  import opened Values
  import opened Records
  import opened Generators
  import GeneratorContributions

  /** The state of every plugin outside this model (currencies, statistics, ...),
      as named quantities. Custom extensions read and write only this. */
  type Ledger = map<string, real>

  /** Everything extensions can read or change: the ledger and the generator plugin. */
  datatype World = World(ledger: Ledger, generators: map<string, GeneratorDefinition>, isActive: ActiveFlags)

  /** A LudiekEvaluator. `modify` rewrites the condition before it is evaluated. */
  datatype Evaluator =
    | IsGeneratorActive
    | CustomEvaluator(tag: string, rewrite: Payload -> Payload, holds: (Ledger, Payload) -> bool)
  {
    function Tag(): string
    {
      if IsGeneratorActive? then GeneratorContributions.IsActiveTag else tag
    }

    /** The contributions keep the base class's `modify`, which leaves a payload as it is. */
    function Modify(p: Payload): Payload
    {
      if IsGeneratorActive? then p else rewrite(p)
    }

    function Evaluate(w: World, p: Payload): Result<bool>
    {
      match this
      case IsGeneratorActive => GeneratorContributions.EvaluateIsActive(w.generators, w.isActive, p)
      case CustomEvaluator(_, _, holds) => Ok(holds(w.ledger, p))
    }
  }

  /** A LudiekConsumer: a check and an effect on the ledger. */
  datatype Consumer = Consumer(
    tag: string,
    rewrite: Payload -> Payload,
    canConsume: (Ledger, Payload) -> bool,
    consume: (Ledger, Payload) -> Ledger)

  /** A LudiekProducer. */
  datatype Producer =
    | ActivateGenerator
    | DeactivateGenerator
    | CustomProducer(
        tag: string,
        rewrite: Payload -> Payload,
        canProduce: (Ledger, Payload) -> bool,
        produce: (Ledger, Payload) -> Ledger)
  {
    function Tag(): string
    {
      match this
      case ActivateGenerator => GeneratorContributions.ActivateTag
      case DeactivateGenerator => GeneratorContributions.DeactivateTag
      case CustomProducer(tag, _, _, _) => tag
    }

    function Modify(p: Payload): Payload
    {
      if CustomProducer? then rewrite(p) else p
    }

    function CanProduce(w: World, p: Payload): bool
    {
      match this
      case CustomProducer(_, _, canProduce, _) => canProduce(w.ledger, p)
      case _ => GeneratorContributions.CanSwitch(w.generators, p)
    }
  }

  /** A LudiekController: resolves a request. */
  datatype Controller = Controller(tag: string, resolve: (Ledger, Payload) -> Ledger)

  /** How a modifier combines the contributions to one bonus. The source
      switches on a string; any other string is an unknown variant. */
  datatype Variant = Additive | Multiplicative | UnknownVariant(name: string)

  /** A LudiekModifier: `stringify` names the quantity a bonus applies to,
      `default` is the value with no contributions. */
  datatype Modifier = Modifier(tag: string, variant: Variant, default: real, stringify: Payload -> string)

  /** The five registries, each keyed by tag. */
  datatype Registry = Registry(
    evaluators: map<string, Evaluator>,
    consumers: map<string, Consumer>,
    producers: map<string, Producer>,
    controllers: map<string, Controller>,
    modifiers: map<string, Modifier>)

  /** Every extension is stored under the tag it handles. */
  ghost predicate Keyed(reg: Registry)
  {
    && (forall t :: t in reg.evaluators ==> reg.evaluators[t].Tag() == t)
    && (forall t :: t in reg.consumers ==> reg.consumers[t].tag == t)
    && (forall t :: t in reg.producers ==> reg.producers[t].Tag() == t)
    && (forall t :: t in reg.controllers ==> reg.controllers[t].tag == t)
    && (forall t :: t in reg.modifiers ==> reg.modifiers[t].tag == t)
  }

  /** `getEvaluator(type)`: the registered evaluator, or ConditionNotFoundError
      listing the registered tags. */
  function GetEvaluator(reg: Registry, tag: string): (r: Result<Evaluator>)
    ensures r.Ok? <==> tag in reg.evaluators
    ensures r.Ok? ==> r.value == reg.evaluators[tag]
    ensures r.Err? ==> r.error == ConditionNotFound(tag, reg.evaluators.Keys)
  {
    if tag in reg.evaluators then Ok(reg.evaluators[tag]) else Err(ConditionNotFound(tag, reg.evaluators.Keys))
  }

  /** `getConsumer(type)`: the registered consumer, or InputNotFoundError. */
  function GetConsumer(reg: Registry, tag: string): (r: Result<Consumer>)
    ensures r.Ok? <==> tag in reg.consumers
    ensures r.Ok? ==> r.value == reg.consumers[tag]
    ensures r.Err? ==> r.error == InputNotFound(tag, reg.consumers.Keys)
  {
    if tag in reg.consumers then Ok(reg.consumers[tag]) else Err(InputNotFound(tag, reg.consumers.Keys))
  }

  /** `getProducer(type)`: the registered producer, or OutputNotFoundError. */
  function GetProducer(reg: Registry, tag: string): (r: Result<Producer>)
    ensures r.Ok? <==> tag in reg.producers
    ensures r.Ok? ==> r.value == reg.producers[tag]
    ensures r.Err? ==> r.error == OutputNotFound(tag, reg.producers.Keys)
  {
    if tag in reg.producers then Ok(reg.producers[tag]) else Err(OutputNotFound(tag, reg.producers.Keys))
  }

  /** `getController(type)`: the registered controller, or ControllerNotFoundError. */
  function GetController(reg: Registry, tag: string): (r: Result<Controller>)
    ensures r.Ok? <==> tag in reg.controllers
    ensures r.Ok? ==> r.value == reg.controllers[tag]
    ensures r.Err? ==> r.error == ControllerNotFound(tag, reg.controllers.Keys)
  {
    if tag in reg.controllers then Ok(reg.controllers[tag]) else Err(ControllerNotFound(tag, reg.controllers.Keys))
  }

  /** `getModifier(type)`: the registered modifier, or ModifierNotFoundError. */
  function GetModifier(reg: Registry, tag: string): (r: Result<Modifier>)
    ensures r.Ok? <==> tag in reg.modifiers
    ensures r.Ok? ==> r.value == reg.modifiers[tag]
    ensures r.Err? ==> r.error == ModifierNotFound(tag, reg.modifiers.Keys)
  {
    if tag in reg.modifiers then Ok(reg.modifiers[tag]) else Err(ModifierNotFound(tag, reg.modifiers.Keys))
  }

  /** Registering a list of extensions one after the other, as the engine's
      constructor does: each is stored under its tag, and of several with the
      same tag the last one stays. */
  function Index<T>(xs: seq<T>, tag: T -> string): (r: map<string, T>)
    ensures r.Keys == set i | 0 <= i < |xs| :: tag(xs[i])
    ensures forall t :: t in r ==> tag(r[t]) == t
    ensures forall i :: 0 <= i < |xs| && (forall j :: i < j < |xs| ==> tag(xs[j]) != tag(xs[i])) ==> r[tag(xs[i])] == xs[i]
    decreases |xs|
  {
    if xs == [] then map[]
    else
      var front := xs[..|xs| - 1];
      var last := xs[|xs| - 1];
      var r := Index(front, tag)[tag(last) := last];
      assert forall i :: 0 <= i < |front| ==> front[i] == xs[i];
      r
  }
}
