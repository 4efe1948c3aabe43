/** The three extensions the generator plugin contributes to the engine
    (packages/ludiek/src/plugins/generator/contributions): two producers that
    switch a generator on or off from a transaction output, and an evaluator
    that reads a generator's flag as a condition. */
module GeneratorContributions {
  import opened Values
  import opened Records
  import opened Generators

  /** The tags the three contributions are registered under. */
  const ActivateTag: string := "/generator/activate"
  const DeactivateTag: string := "/generator/deactivate"
  const IsActiveTag: string := "/generator/is-active"

  /** `ActivateGeneratorProducer.canProduce` and `DeactivateGeneratorProducer.canProduce`:
      the output can be produced exactly when producing it will not throw,
      whatever the generator's current flag. */
  function CanSwitch(generators: map<string, GeneratorDefinition>, output: Payload): (r: bool)
    ensures forall isActive: ActiveFlags, on: bool :: r <==> SetActive(generators, isActive, output.id, on).Ok?
  {
    Supports(generators, output.id)
  }

  /** Whether an output can be produced depends on its id only, never on its amount. */
  lemma CanSwitchIgnoresAmount(generators: map<string, GeneratorDefinition>, output: Payload, amount: real)
    ensures CanSwitch(generators, output.(amount := amount)) == CanSwitch(generators, output)
  {
  }

  /** `IsGeneratorActiveEvaluator.evaluate`: the named generator's flag, or
      UnknownGeneratorError for an id that was never loaded. */
  function EvaluateIsActive(generators: map<string, GeneratorDefinition>, isActive: ActiveFlags, condition: Payload): (r: Result<bool>)
    ensures r.Err? <==> !Supports(generators, condition.id)
    ensures r.Err? ==> r.error == UnknownGenerator(condition.id)
    ensures r.Ok? ==> (r.value <==> condition.id in isActive.entries && isActive.entries[condition.id])
  {
    ActiveQuery(generators, isActive, condition.id)
  }

  /** `ActivateGeneratorProducer.produce`: the named generator becomes active,
      no other flag changes, and the activation event is emitted if it was off. */
  method ProduceActivate(plugin: GeneratorPlugin, output: Payload) returns (r: Outcome)
    requires plugin.Valid()
    modifies plugin
    ensures plugin.Valid() && plugin.generators == old(plugin.generators)
    ensures r == Pass <==> CanSwitch(old(plugin.generators), output)
    ensures r.Fail? ==> r.error == UnknownGenerator(output.id)
                        && plugin.isActive == old(plugin.isActive) && plugin.events == old(plugin.events)
    ensures r == Pass ==> IsOn(plugin.isActive, output.id)
    ensures forall k :: k != output.id && k in old(plugin.isActive.entries) ==>
              k in plugin.isActive.entries && plugin.isActive.entries[k] == old(plugin.isActive.entries[k])
    ensures match SetActive(old(plugin.generators), old(plugin.isActive), output.id, true)
            case Err(_) => true
            case Ok(s) => plugin.isActive == s.isActive && plugin.events == old(plugin.events) + s.emitted
  {
    r := plugin.ActivateGenerator(output.id);
  }

  /** `DeactivateGeneratorProducer.produce`: the named generator becomes
      inactive, no other flag changes, and the deactivation event is emitted if it was on. */
  method ProduceDeactivate(plugin: GeneratorPlugin, output: Payload) returns (r: Outcome)
    requires plugin.Valid()
    modifies plugin
    ensures plugin.Valid() && plugin.generators == old(plugin.generators)
    ensures r == Pass <==> CanSwitch(old(plugin.generators), output)
    ensures r.Fail? ==> r.error == UnknownGenerator(output.id)
                        && plugin.isActive == old(plugin.isActive) && plugin.events == old(plugin.events)
    ensures r == Pass ==> !IsOn(plugin.isActive, output.id)
    ensures forall k :: k != output.id && k in old(plugin.isActive.entries) ==>
              k in plugin.isActive.entries && plugin.isActive.entries[k] == old(plugin.isActive.entries[k])
    ensures match SetActive(old(plugin.generators), old(plugin.isActive), output.id, false)
            case Err(_) => true
            case Ok(s) => plugin.isActive == s.isActive && plugin.events == old(plugin.events) + s.emitted
  {
    r := plugin.DeactivateGenerator(output.id);
  }

  /** After a successful deactivation the is-active condition on the same id
      evaluates to false, and after an activation to true. */
  lemma EvaluateAfterSwitch(generators: map<string, GeneratorDefinition>, isActive: ActiveFlags, id: string, on: bool, condition: Payload)
    requires SetActive(generators, isActive, id, on).Ok?
    requires condition.id == id
    ensures EvaluateIsActive(generators, SetActive(generators, isActive, id, on).value.isActive, condition) == Ok(on)
  {
  }
}
