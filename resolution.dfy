/** How the engine resolves conditions, inputs, outputs, requests and
    transactions (packages/ludiek/src/engine/LudiekEngine.ts:97-201), as
    functions of the registry and the world. The engine's methods are proved
    against these. */
module Resolution {
  import opened Values
  import opened Records
  import opened Generators
  import opened Extensions

  /** `array.every(check)` where `check` may throw: true when every item
      passes; otherwise the outcome of the first item that does not pass,
      false or an error, and nothing after it is looked at. */
  function Every(check: Payload -> Result<bool>, xs: seq<Payload>): (r: Result<bool>)
    ensures r == Ok(true) <==> forall i :: 0 <= i < |xs| ==> check(xs[i]) == Ok(true)
    ensures r != Ok(true) ==>
              exists i :: 0 <= i < |xs| && check(xs[i]) == r && forall j :: 0 <= j < i ==> check(xs[j]) == Ok(true)
  {
    if xs == [] then Ok(true)
    else
      var first := check(xs[0]);
      if first != Ok(true) then
        assert check(xs[0]) == first;
        first
      else
        var rest := Every(check, xs[1..]);
        if rest != Ok(true) then
          var i :| 0 <= i < |xs[1..]| && check(xs[1..][i]) == rest && forall j :: 0 <= j < i ==> check(xs[1..][j]) == Ok(true);
          assert check(xs[i + 1]) == rest;
          assert forall j :: 1 <= j < i + 1 ==> check(xs[j]) == check(xs[1..][j - 1]);
          rest
        else rest
  }

  /** Once an item fails, later items cannot change the outcome: evaluation
      stops at the first item that is not true. */
  lemma {:induction false} EveryStopsAtFirstFailure(check: Payload -> Result<bool>, xs: seq<Payload>, rest: seq<Payload>)
    requires Every(check, xs) != Ok(true)
    ensures Every(check, xs + rest) == Every(check, xs)
  {
    if check(xs[0]) == Ok(true) {
      assert (xs + rest)[1..] == xs[1..] + rest;
      EveryStopsAtFirstFailure(check, xs[1..], rest);
    }
  }

  /** Evaluating one condition: look up its evaluator, let it rewrite the
      condition, evaluate the rewritten copy. */
  function EvaluateOne(reg: Registry, w: World, c: Payload): (r: Result<bool>)
    ensures c.tag !in reg.evaluators ==> r == Err(ConditionNotFound(c.tag, reg.evaluators.Keys))
    ensures c.tag in reg.evaluators ==>
              r == reg.evaluators[c.tag].Evaluate(w, reg.evaluators[c.tag].Modify(c))
  {
    match GetEvaluator(reg, c.tag)
    case Err(e) => Err(e)
    case Ok(evaluator) => evaluator.Evaluate(w, evaluator.Modify(c))
  }

  /** `evaluate(condition)`. */
  function Evaluate(reg: Registry, w: World, conditions: Items): (r: Result<bool>)
    ensures var xs := conditions.Normalized();
            r == Ok(true) <==> forall i :: 0 <= i < |xs| ==> EvaluateOne(reg, w, xs[i]) == Ok(true)
    ensures var xs := conditions.Normalized();
            r != Ok(true) ==>
              exists i :: 0 <= i < |xs| && EvaluateOne(reg, w, xs[i]) == r && forall j :: 0 <= j < i ==> EvaluateOne(reg, w, xs[j]) == Ok(true)
  {
    Every(c => EvaluateOne(reg, w, c), conditions.Normalized())
  }

  /** A single condition evaluates as the array holding just it does, and the
      empty array evaluates to true. */
  lemma EvaluateShapes(reg: Registry, w: World, c: Payload)
    ensures Evaluate(reg, w, One(c)) == Evaluate(reg, w, Many([c])) == EvaluateOne(reg, w, c)
    ensures Evaluate(reg, w, Many([])) == Ok(true)
  {
  }

  /** Checking one input: look up its consumer, rewrite, ask `canConsume`. */
  function CanConsumeOne(reg: Registry, w: World, x: Payload): (r: Result<bool>)
    ensures r.Err? <==> x.tag !in reg.consumers
    ensures r.Err? ==> r.error == InputNotFound(x.tag, reg.consumers.Keys)
    ensures r.Ok? ==> r.value == reg.consumers[x.tag].canConsume(w.ledger, reg.consumers[x.tag].rewrite(x))
  {
    match GetConsumer(reg, x.tag)
    case Err(e) => Err(e)
    case Ok(consumer) => Ok(consumer.canConsume(w.ledger, consumer.rewrite(x)))
  }

  /** `canConsume(input)`. */
  function CanConsume(reg: Registry, w: World, input: Items): (r: Result<bool>)
    ensures var xs := input.Normalized();
            r == Ok(true) <==> forall i :: 0 <= i < |xs| ==> CanConsumeOne(reg, w, xs[i]) == Ok(true)
    ensures var xs := input.Normalized();
            r != Ok(true) ==>
              exists i :: 0 <= i < |xs| && CanConsumeOne(reg, w, xs[i]) == r && forall j :: 0 <= j < i ==> CanConsumeOne(reg, w, xs[j]) == Ok(true)
  {
    Every(x => CanConsumeOne(reg, w, x), input.Normalized())
  }

  /** Checking one output: look up its producer, rewrite, ask `canProduce`. */
  function CanProduceOne(reg: Registry, w: World, x: Payload): (r: Result<bool>)
    ensures r.Err? <==> x.tag !in reg.producers
    ensures r.Err? ==> r.error == OutputNotFound(x.tag, reg.producers.Keys)
    ensures r.Ok? ==> r.value == reg.producers[x.tag].CanProduce(w, reg.producers[x.tag].Modify(x))
  {
    match GetProducer(reg, x.tag)
    case Err(e) => Err(e)
    case Ok(producer) => Ok(producer.CanProduce(w, producer.Modify(x)))
  }

  /** `canProduce(output)`. */
  function CanProduce(reg: Registry, w: World, output: Items): (r: Result<bool>)
    ensures var xs := output.Normalized();
            r == Ok(true) <==> forall i :: 0 <= i < |xs| ==> CanProduceOne(reg, w, xs[i]) == Ok(true)
    ensures var xs := output.Normalized();
            r != Ok(true) ==>
              exists i :: 0 <= i < |xs| && CanProduceOne(reg, w, xs[i]) == r && forall j :: 0 <= j < i ==> CanProduceOne(reg, w, xs[j]) == Ok(true)
  {
    Every(x => CanProduceOne(reg, w, x), output.Normalized())
  }

  /** The state after a sequence of effects: the world, the generator events
      emitted, and the error that stopped it, if one did. Effects applied
      before an error stay applied. */
  datatype Effect = Effect(world: World, events: seq<GeneratorEvent>, error: Option<Error>)

  /** Running `step` after `front`: the step's world and error, both event lists. */
  function Then(front: Effect, step: Effect): Effect
  {
    Effect(step.world, front.events + step.events, step.error)
  }

  /** Consuming one input: its consumer changes the ledger. */
  function ConsumeStep(reg: Registry, w: World, x: Payload): (r: Effect)
  {
    match GetConsumer(reg, x.tag)
    case Err(err) => Effect(w, [], Some(err))
    case Ok(consumer) => Effect(w.(ledger := consumer.consume(w.ledger, consumer.rewrite(x))), [], None)
  }

  /** `consume(input)` on the normalised array: each input in turn, stopping
      at the first whose consumer is not registered. Only the ledger changes. */
  function ConsumeAll(reg: Registry, w: World, xs: seq<Payload>): (r: Effect)
    ensures r.world.generators == w.generators && r.world.isActive == w.isActive && r.events == []
    decreases |xs|
  {
    if xs == [] then Effect(w, [], None)
    else
      var front := ConsumeAll(reg, w, xs[..|xs| - 1]);
      if front.error.Some? then front else Then(front, ConsumeStep(reg, front.world, xs[|xs| - 1]))
  }

  /** Switching a generator from a producer. */
  function SwitchStep(w: World, id: string, on: bool): (r: Effect)
    ensures r.world.generators == w.generators && r.world.ledger == w.ledger
    ensures r.error.None? <==> Supports(w.generators, id)
  {
    match SetActive(w.generators, w.isActive, id, on)
    case Err(err) => Effect(w, [], Some(err))
    case Ok(s) => Effect(w.(isActive := s.isActive), s.emitted, None)
  }

  /** Producing one output: the generator contributions switch a generator,
      any other producer changes the ledger. */
  function ProduceStep(reg: Registry, w: World, x: Payload): (r: Effect)
    ensures r.world.generators == w.generators
  {
    match GetProducer(reg, x.tag)
    case Err(err) => Effect(w, [], Some(err))
    case Ok(producer) =>
      var y := producer.Modify(x);
      match producer
      case ActivateGenerator => SwitchStep(w, y.id, true)
      case DeactivateGenerator => SwitchStep(w, y.id, false)
      case CustomProducer(_, _, _, produce) => Effect(w.(ledger := produce(w.ledger, y)), [], None)
  }

  /** `produce(output)` on the normalised array: each output in turn, stopping
      at the first that throws. The generator definitions never change. */
  function ProduceAll(reg: Registry, w: World, xs: seq<Payload>): (r: Effect)
    ensures r.world.generators == w.generators
    decreases |xs|
  {
    if xs == [] then Effect(w, [], None)
    else
      var front := ProduceAll(reg, w, xs[..|xs| - 1]);
      if front.error.Some? then front else Then(front, ProduceStep(reg, front.world, xs[|xs| - 1]))
  }

  /** One more input: consume it after the ones before, unless they stopped. */
  lemma ConsumeAllSnoc(reg: Registry, w: World, xs: seq<Payload>, i: nat)
    requires i < |xs|
    ensures var front := ConsumeAll(reg, w, xs[..i]);
            ConsumeAll(reg, w, xs[..i + 1]) == if front.error.Some? then front else Then(front, ConsumeStep(reg, front.world, xs[i]))
  {
    assert xs[..i + 1][..i] == xs[..i];
  }

  /** One more output: produce it after the ones before, unless they stopped. */
  lemma ProduceAllSnoc(reg: Registry, w: World, xs: seq<Payload>, i: nat)
    requires i < |xs|
    ensures var front := ProduceAll(reg, w, xs[..i]);
            ProduceAll(reg, w, xs[..i + 1]) == if front.error.Some? then front else Then(front, ProduceStep(reg, front.world, xs[i]))
  {
    assert xs[..i + 1][..i] == xs[..i];
  }

  /** Consuming stops at the first error: nothing after it has any effect. */
  lemma {:induction false} ConsumeAllStops(reg: Registry, w: World, xs: seq<Payload>, k: nat)
    requires k <= |xs| && ConsumeAll(reg, w, xs[..k]).error.Some?
    ensures ConsumeAll(reg, w, xs) == ConsumeAll(reg, w, xs[..k])
    decreases |xs|
  {
    if k < |xs| {
      var n := |xs| - 1;
      assert xs[..n][..k] == xs[..k];
      ConsumeAllStops(reg, w, xs[..n], k);
    } else {
      assert xs[..k] == xs;
    }
  }

  /** Producing stops at the first error: nothing after it has any effect. */
  lemma {:induction false} ProduceAllStops(reg: Registry, w: World, xs: seq<Payload>, k: nat)
    requires k <= |xs| && ProduceAll(reg, w, xs[..k]).error.Some?
    ensures ProduceAll(reg, w, xs) == ProduceAll(reg, w, xs[..k])
    decreases |xs|
  {
    if k < |xs| {
      var front := xs[..|xs| - 1];
      assert front[..k] == xs[..k];
      ProduceAllStops(reg, w, front, k);
      assert ProduceAll(reg, w, front).error.Some?;
    } else {
      assert xs[..k] == xs;
    }
  }

  /** Consuming fails exactly when some input has no registered consumer. */
  lemma {:induction false} ConsumeAllSucceeds(reg: Registry, w: World, xs: seq<Payload>)
    ensures ConsumeAll(reg, w, xs).error.None? <==> forall i :: 0 <= i < |xs| ==> xs[i].tag in reg.consumers
    decreases |xs|
  {
    if xs != [] {
      var n := |xs| - 1;
      ConsumeAllSucceeds(reg, w, xs[..n]);
      assert forall i :: 0 <= i < n ==> xs[..n][i] == xs[i];
    }
  }

  /** Inputs that pass `canConsume` are consumed without an error. */
  lemma ConsumeAfterCheck(reg: Registry, w: World, w': World, input: Items)
    requires CanConsume(reg, w, input) == Ok(true)
    ensures ConsumeAll(reg, w', input.Normalized()).error.None?
  {
    var xs := input.Normalized();
    ConsumeAllSucceeds(reg, w', xs);
    forall i | 0 <= i < |xs|
      ensures xs[i].tag in reg.consumers
    {
      assert CanConsumeOne(reg, w, xs[i]) == Ok(true);
    }
  }

  /** Outputs that pass `canProduce` are produced without an error, in any
      world with the same generator definitions: every producer was looked up
      in the check, and the generator contributions only need the id to be loaded. */
  lemma {:induction false} ProduceAfterCheck(reg: Registry, w: World, w': World, xs: seq<Payload>)
    requires Keyed(reg)
    requires w'.generators == w.generators
    requires forall i :: 0 <= i < |xs| ==> CanProduceOne(reg, w, xs[i]) == Ok(true)
    ensures ProduceAll(reg, w', xs).error.None?
    decreases |xs|
  {
    if xs != [] {
      var n := |xs| - 1;
      ProduceAfterCheck(reg, w, w', xs[..n]);
      var x := xs[n];
      assert CanProduceOne(reg, w, x) == Ok(true);
      var front := ProduceAll(reg, w', xs[..n]);
      var p := reg.producers[x.tag];
      if !p.CustomProducer? {
        assert Supports(w.generators, p.Modify(x).id);
      }
    }
  }

  /** A transaction: an optional requirement, an optional input and an optional output. */
  datatype Transaction = Transaction(requirement: Option<Items>, input: Option<Items>, output: Option<Items>)

  /** The check phase of `handleTransaction`: the requirement, then the input,
      then the output; an absent part passes. The first check that fails
      decides; an unregistered tag throws. */
  function Check(reg: Registry, w: World, tx: Transaction): (r: Result<bool>)
    ensures r == Ok(true) <==>
              && (tx.requirement.Some? ==> Evaluate(reg, w, tx.requirement.value) == Ok(true))
              && (tx.input.Some? ==> CanConsume(reg, w, tx.input.value) == Ok(true))
              && (tx.output.Some? ==> CanProduce(reg, w, tx.output.value) == Ok(true))
  {
    var required := if tx.requirement.Some? then Evaluate(reg, w, tx.requirement.value) else Ok(true);
    if required != Ok(true) then required
    else
      var consumable := if tx.input.Some? then CanConsume(reg, w, tx.input.value) else Ok(true);
      if consumable != Ok(true) then consumable
      else if tx.output.Some? then CanProduce(reg, w, tx.output.value)
      else Ok(true)
  }

  /** The effect phase: consume the input once, then produce the output once. */
  function Apply(reg: Registry, w: World, tx: Transaction): Effect
  {
    var consumed := if tx.input.Some? then ConsumeAll(reg, w, tx.input.value.Normalized()) else Effect(w, [], None);
    if consumed.error.Some? || tx.output.None? then consumed
    else
      var produced := ProduceAll(reg, consumed.world, tx.output.value.Normalized());
      produced.(events := consumed.events + produced.events)
  }

  /** What `handleTransaction` returns and leaves behind. */
  datatype Run = Run(result: Result<bool>, effect: Effect)

  /** `handleTransaction(tx)`: check everything, and only if everything
      passes apply the effects. */
  function Transact(reg: Registry, w: World, tx: Transaction): (r: Run)
    ensures r.effect.world.generators == w.generators
    ensures r.effect.error.Some? ==> r.result == Err(r.effect.error.value)
    ensures r.result == Ok(true) ==> r.effect.error.None?
  {
    var checked := Check(reg, w, tx);
    if checked != Ok(true) then Run(checked, Effect(w, [], None))
    else
      var applied := Apply(reg, w, tx);
      if applied.error.Some? then Run(Err(applied.error.value), applied) else Run(Ok(true), applied)
  }

  /** Checking first makes a transaction all or nothing: it succeeds exactly
      when every present check passes, and then the effect phase cannot throw,
      so no effect is ever followed by a not-found error. */
  lemma TransactAllOrNothing(reg: Registry, w: World, tx: Transaction)
    requires Keyed(reg)
    ensures Transact(reg, w, tx).result == Ok(true) <==> Check(reg, w, tx) == Ok(true)
    ensures Check(reg, w, tx) == Ok(true) ==> Transact(reg, w, tx).effect == Apply(reg, w, tx)
                                              && Apply(reg, w, tx).error.None?
    ensures Check(reg, w, tx) != Ok(true) ==> Transact(reg, w, tx) == Run(Check(reg, w, tx), Effect(w, [], None))
  {
    if Check(reg, w, tx) == Ok(true) {
      var consumed := if tx.input.Some? then ConsumeAll(reg, w, tx.input.value.Normalized()) else Effect(w, [], None);
      if tx.input.Some? {
        ConsumeAfterCheck(reg, w, w, tx.input.value);
      }
      if tx.output.Some? {
        var ys := tx.output.value.Normalized();
        forall i | 0 <= i < |ys|
          ensures CanProduceOne(reg, w, ys[i]) == Ok(true)
        {
        }
        ProduceAfterCheck(reg, w, consumed.world, ys);
      }
    }
  }

  /** `request(request)`: the controller for its tag resolves it, or
      ControllerNotFoundError when there is none. */
  function Request(reg: Registry, w: World, request: Payload): (r: Result<World>)
    ensures r.Err? <==> request.tag !in reg.controllers
    ensures r.Err? ==> r.error == ControllerNotFound(request.tag, reg.controllers.Keys)
    ensures r.Ok? ==> r.value == w.(ledger := reg.controllers[request.tag].resolve(w.ledger, request))
  {
    match GetController(reg, request.tag)
    case Err(e) => Err(e)
    case Ok(controller) => Ok(w.(ledger := controller.resolve(w.ledger, request)))
  }
}
