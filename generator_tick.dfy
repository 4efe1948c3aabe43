/** `GeneratorPlugin.tick(delta)` (packages/ludiek/src/plugins/generator/GeneratorPlugin.ts:86-137).
    The plugin reaches the engine's `evaluate`, `canConsume`, `consume`,
    `canProduce` and `produce` through its base class, so the tick is stated
    over the engine that hosts the plugin. */
module GeneratorTick {
  import opened Values
  import opened Records
  import opened Generators
  import opened Extensions
  import opened Resolution
  import opened Engine

  /** `Object.entries(isActive)`: each id with its flag, read once when the
      tick starts, in the object's key order (array-index ids first, in
      ascending numeric order, then the others in insertion order). */
  function Entries(isActive: ActiveFlags): (r: seq<(string, bool)>)
    requires isActive.Valid()
    ensures |r| == |isActive.Order()|
    ensures forall i :: 0 <= i < |r| ==> r[i].0 == isActive.Order()[i] && r[i].1 == IsOn(isActive, r[i].0)
  {
    var ids := isActive.Order();
    isActive.OrderListed();
    seq(|ids|, i requires 0 <= i < |ids| => (ids[i], isActive.entries[ids[i]]))
  }

  /** The third step of one generator's turn: check the scaled output, then
      produce it and report the tick with the amounts actually used. */
  function OutputStage(reg: Registry, w: World, id: string, g: GeneratorDefinition, input: Option<Items>, delta: real): Effect
  {
    var output := Scale(g.output, delta);
    var producible := CanProduce(reg, w, output);
    if producible.Err? then Effect(w, [], Some(producible.error))
    else if !producible.value then Effect(w, [TickFailed(id, CannotProduceOutput)], None)
    else
      var produced := ProduceAll(reg, w, output.Normalized());
      if produced.error.Some? then produced
      else produced.(events := produced.events + [Ticked(id, g, delta, input, output)])
  }

  /** The second step: when the generator has an input, check the scaled
      input and consume it, before the output is even checked. */
  function InputStage(reg: Registry, w: World, id: string, g: GeneratorDefinition, delta: real): Effect
  {
    if g.input.None? then OutputStage(reg, w, id, g, None, delta)
    else
      var input := Scale(g.input.value, delta);
      var affordable := CanConsume(reg, w, input);
      if affordable.Err? then Effect(w, [], Some(affordable.error))
      else if !affordable.value then Effect(w, [TickFailed(id, CannotConsumeInput)], None)
      else
        var consumed := ConsumeAll(reg, w, input.Normalized());
        if consumed.error.Some? then consumed
        else OutputStage(reg, consumed.world, id, g, Some(input), delta)
  }

  /** One entry's turn: an inactive id or one without a definition is
      skipped; otherwise the conditions are evaluated first. */
  function TickOne(reg: Registry, w: World, id: string, active: bool, delta: real): Effect
  {
    if !active || !Supports(w.generators, id) then Effect(w, [], None)
    else
      var g := w.generators[id];
      var met := if g.conditions.Some? then Evaluate(reg, w, g.conditions.value) else Ok(true);
      if met.Err? then Effect(w, [], Some(met.error))
      else if !met.value then Effect(w, [TickFailed(id, ConditionsNotMet)], None)
      else InputStage(reg, w, id, g, delta)
  }

  /** The whole tick: each entry's turn in the world the turns before it left;
      an error thrown in a turn ends the tick. */
  function TickAll(reg: Registry, w: World, flags: seq<(string, bool)>, delta: real): Effect
    decreases |flags|
  {
    if flags == [] then Effect(w, [], None)
    else
      var front := TickAll(reg, w, flags[..|flags| - 1], delta);
      if front.error.Some? then front
      else Then(front, TickOne(reg, front.world, flags[|flags| - 1].0, flags[|flags| - 1].1, delta))
  }

  /** An inactive entry, or one whose generator was never loaded, changes nothing. */
  lemma TickSkips(reg: Registry, w: World, id: string, active: bool, delta: real)
    requires !active || !Supports(w.generators, id)
    ensures TickOne(reg, w, id, active, delta) == Effect(w, [], None)
  {
  }

  /** Conditions that evaluate to false fail the turn with `conditions_not_met`
      before anything is consumed or produced. */
  lemma TickConditionsNotMet(reg: Registry, w: World, id: string, delta: real)
    requires Supports(w.generators, id)
    requires var g := w.generators[id];
             g.conditions.Some? && Evaluate(reg, w, g.conditions.value) == Ok(false)
    ensures TickOne(reg, w, id, true, delta) == Effect(w, [TickFailed(id, ConditionsNotMet)], None)
  {
  }

  /** A scaled input that cannot be consumed fails the turn with
      `cannot_consume_input`, and nothing is consumed. */
  lemma TickCannotConsume(reg: Registry, w: World, id: string, delta: real)
    requires Supports(w.generators, id)
    requires var g := w.generators[id];
             && (g.conditions.Some? ==> Evaluate(reg, w, g.conditions.value) == Ok(true))
             && g.input.Some? && CanConsume(reg, w, Scale(g.input.value, delta)) == Ok(false)
    ensures TickOne(reg, w, id, true, delta) == Effect(w, [TickFailed(id, CannotConsumeInput)], None)
  {
  }

  /** The output is checked only after the input is consumed: a scaled output
      that cannot be produced fails the turn with `cannot_produce_output`, and
      the input stays consumed. */
  lemma TickCannotProduce(reg: Registry, w: World, id: string, delta: real)
    requires Supports(w.generators, id)
    requires var g := w.generators[id];
             && (g.conditions.Some? ==> Evaluate(reg, w, g.conditions.value) == Ok(true))
             && g.input.Some? && CanConsume(reg, w, Scale(g.input.value, delta)) == Ok(true)
             && var consumed := ConsumeAll(reg, w, Scale(g.input.value, delta).Normalized());
                CanProduce(reg, consumed.world, Scale(g.output, delta)) == Ok(false)
    ensures var g := w.generators[id];
            var consumed := ConsumeAll(reg, w, Scale(g.input.value, delta).Normalized());
            TickOne(reg, w, id, true, delta) == Effect(consumed.world, [TickFailed(id, CannotProduceOutput)], None)
  {
    var g := w.generators[id];
    ConsumeAfterCheck(reg, w, w, Scale(g.input.value, delta));
  }

  /** When every check passes, the turn throws nothing: it consumes the scaled
      input, produces the scaled output, and ends with GeneratorTicked carrying
      the generator, `delta` and both scaled amounts. */
  lemma TickSucceeds(reg: Registry, w: World, id: string, delta: real)
    requires Keyed(reg) && Supports(w.generators, id)
    requires var g := w.generators[id];
             && (g.conditions.Some? ==> Evaluate(reg, w, g.conditions.value) == Ok(true))
             && (g.input.Some? ==> CanConsume(reg, w, Scale(g.input.value, delta)) == Ok(true))
             && var consumed := if g.input.Some? then ConsumeAll(reg, w, Scale(g.input.value, delta).Normalized()).world else w;
                CanProduce(reg, consumed, Scale(g.output, delta)) == Ok(true)
    ensures var g := w.generators[id];
            var input := if g.input.Some? then Some(Scale(g.input.value, delta)) else None;
            var consumed := if g.input.Some? then ConsumeAll(reg, w, input.value.Normalized()).world else w;
            var output := Scale(g.output, delta);
            var produced := ProduceAll(reg, consumed, output.Normalized());
            && TickOne(reg, w, id, true, delta).error.None?
            && TickOne(reg, w, id, true, delta).world == produced.world
            && TickOne(reg, w, id, true, delta).events == produced.events + [Ticked(id, g, delta, input, output)]
  {
    var g := w.generators[id];
    var input := if g.input.Some? then Some(Scale(g.input.value, delta)) else None;
    var consumed := if g.input.Some? then ConsumeAll(reg, w, input.value.Normalized()).world else w;
    var output := Scale(g.output, delta);
    if g.input.Some? {
      ConsumeAfterCheck(reg, w, w, input.value);
    }
    var ys := output.Normalized();
    forall i | 0 <= i < |ys|
      ensures CanProduceOne(reg, consumed, ys[i]) == Ok(true)
    {
    }
    ProduceAfterCheck(reg, consumed, consumed, ys);
  }

  /** A tick in which no entry is active changes nothing and dispatches nothing. */
  lemma {:induction false} TickAllIdle(reg: Registry, w: World, flags: seq<(string, bool)>, delta: real)
    requires forall i :: 0 <= i < |flags| ==> !flags[i].1
    ensures TickAll(reg, w, flags, delta) == Effect(w, [], None)
    decreases |flags|
  {
    if flags != [] {
      var n := |flags| - 1;
      TickAllIdle(reg, w, flags[..n], delta);
      TickSkips(reg, w, flags[n].0, flags[n].1, delta);
    }
  }

  /** One more entry: its turn follows the turns before it, unless they threw. */
  lemma TickAllSnoc(reg: Registry, w: World, flags: seq<(string, bool)>, i: nat, delta: real)
    requires i < |flags|
    ensures var front := TickAll(reg, w, flags[..i], delta);
            TickAll(reg, w, flags[..i + 1], delta) ==
              if front.error.Some? then front else Then(front, TickOne(reg, front.world, flags[i].0, flags[i].1, delta))
  {
    assert flags[..i + 1][..i] == flags[..i];
  }

  /** The last entry takes no turn once the entries before it threw. */
  lemma TickAllThrown(reg: Registry, w: World, flags: seq<(string, bool)>, delta: real)
    requires flags != [] && TickAll(reg, w, flags[..|flags| - 1], delta).error.Some?
    ensures TickAll(reg, w, flags, delta) == TickAll(reg, w, flags[..|flags| - 1], delta)
  {
  }

  /** A throw ends the tick: the entries after it take no turn. */
  lemma {:induction false} TickAllStops(reg: Registry, w: World, flags: seq<(string, bool)>, k: nat, delta: real)
    requires k <= |flags| && TickAll(reg, w, flags[..k], delta).error.Some?
    ensures TickAll(reg, w, flags, delta) == TickAll(reg, w, flags[..k], delta)
    decreases |flags|
  {
    if k < |flags| {
      var front := flags[..|flags| - 1];
      assert front[..k] == flags[..k];
      TickAllStops(reg, w, front, k, delta);
      assert TickAll(reg, w, front, delta).error.Some?;
      TickAllThrown(reg, w, flags, delta);
    } else {
      assert flags[..k] == flags;
    }
  }

  /** Dispatches one generator event. */
  method Dispatch(plugin: GeneratorPlugin, e: GeneratorEvent)
    modifies plugin
    ensures plugin.events == old(plugin.events) + [e]
    ensures plugin.generators == old(plugin.generators) && plugin.isActive == old(plugin.isActive)
  {
    plugin.events := plugin.events + [e];
  }

  /** The output step of a turn, against OutputStage. */
  method TickOutput(engine: LudiekEngine, id: string, g: GeneratorDefinition, input: Option<Items>, delta: real) returns (r: Outcome)
    requires engine.Valid()
    modifies engine`ledger, engine.generator
    ensures engine.Valid() && engine.Reg() == old(engine.Reg()) && engine.activeBonuses == old(engine.activeBonuses)
    ensures var e := OutputStage(old(engine.Reg()), old(engine.Now()), id, g, input, delta);
            && engine.Now() == e.world
            && engine.generator.events == old(engine.generator.events) + e.events
            && (r.Fail? <==> e.error.Some?)
            && (r.Fail? ==> r.error == e.error.value)
  {
    var output := Scale(g.output, delta);
    var producible := engine.CanProduce(output);
    if producible.Err? {
      return Fail(producible.error);
    }
    if !producible.value {
      Dispatch(engine.generator, TickFailed(id, CannotProduceOutput));
      return Pass;
    }
    ghost var events0 := engine.generator.events;
    r := engine.Produce(output);
    if r.Pass? {
      Dispatch(engine.generator, Ticked(id, g, delta, input, output));
      ghost var produced := ProduceAll(old(engine.Reg()), old(engine.Now()), output.Normalized());
      AppendAssoc(events0, produced.events, [Ticked(id, g, delta, input, output)]);
    }
  }

  /** The input and output steps of a turn, against InputStage. */
  method TickInput(engine: LudiekEngine, id: string, g: GeneratorDefinition, delta: real) returns (r: Outcome)
    requires engine.Valid()
    modifies engine`ledger, engine.generator
    ensures engine.Valid() && engine.Reg() == old(engine.Reg()) && engine.activeBonuses == old(engine.activeBonuses)
    ensures var e := InputStage(old(engine.Reg()), old(engine.Now()), id, g, delta);
            && engine.Now() == e.world
            && engine.generator.events == old(engine.generator.events) + e.events
            && (r.Fail? <==> e.error.Some?)
            && (r.Fail? ==> r.error == e.error.value)
  {
    if g.input.None? {
      r := TickOutput(engine, id, g, None, delta);
      return;
    }
    var input := Scale(g.input.value, delta);
    var affordable := engine.CanConsume(input);
    if affordable.Err? {
      return Fail(affordable.error);
    }
    if !affordable.value {
      Dispatch(engine.generator, TickFailed(id, CannotConsumeInput));
      return Pass;
    }
    r := engine.Consume(input);
    if r.Pass? {
      r := TickOutput(engine, id, g, Some(input), delta);
    }
  }

  /** One entry's turn, against TickOne. */
  method TickTurn(engine: LudiekEngine, id: string, active: bool, delta: real) returns (r: Outcome)
    requires engine.Valid()
    modifies engine`ledger, engine.generator
    ensures engine.Valid() && engine.Reg() == old(engine.Reg()) && engine.activeBonuses == old(engine.activeBonuses)
    ensures var e := TickOne(old(engine.Reg()), old(engine.Now()), id, active, delta);
            && engine.Now() == e.world
            && engine.generator.events == old(engine.generator.events) + e.events
            && (r.Fail? <==> e.error.Some?)
            && (r.Fail? ==> r.error == e.error.value)
  {
    if !active || !engine.generator.SupportsGenerator(id) {
      return Pass;
    }
    var g := engine.generator.generators[id];
    if g.conditions.Some? {
      var met := engine.Evaluate(g.conditions.value);
      if met.Err? {
        return Fail(met.error);
      }
      if !met.value {
        Dispatch(engine.generator, TickFailed(id, ConditionsNotMet));
        return Pass;
      }
    }
    r := TickInput(engine, id, g, delta);
  }

  /** One more entry, after the entries before it took their turns without a throw. */
  method TickNext(engine: LudiekEngine, ghost start: World, ghost events0: seq<GeneratorEvent>,
                  flags: seq<(string, bool)>, i: nat, delta: real) returns (r: Outcome)
    requires engine.Valid() && i < |flags|
    requires var e := TickAll(engine.Reg(), start, flags[..i], delta);
             e.error.None? && engine.Now() == e.world && engine.generator.events == events0 + e.events
    modifies engine`ledger, engine.generator
    ensures engine.Valid() && engine.Reg() == old(engine.Reg()) && engine.activeBonuses == old(engine.activeBonuses)
    ensures var e := TickAll(old(engine.Reg()), start, flags[..i + 1], delta);
            && engine.Now() == e.world
            && engine.generator.events == events0 + e.events
            && (r.Fail? <==> e.error.Some?)
            && (r.Fail? ==> r.error == e.error.value)
  {
    ghost var front := TickAll(engine.Reg(), start, flags[..i], delta);
    TickAllSnoc(engine.Reg(), start, flags, i, delta);
    r := TickTurn(engine, flags[i].0, flags[i].1, delta);
    AppendAssoc(events0, front.events, TickOne(old(engine.Reg()), old(engine.Now()), flags[i].0, flags[i].1, delta).events);
  }

  /** `tick(delta)`: every entry of the flags as they were when the tick
      started takes its turn in key order; a throw ends the tick and leaves
      the effects before it in place. */
  method Tick(engine: LudiekEngine, delta: real) returns (r: Outcome)
    requires engine.Valid()
    modifies engine`ledger, engine.generator
    ensures engine.Valid() && engine.Reg() == old(engine.Reg()) && engine.activeBonuses == old(engine.activeBonuses)
    ensures var e := TickAll(old(engine.Reg()), old(engine.Now()), Entries(old(engine.generator.isActive)), delta);
            && engine.Now() == e.world
            && engine.generator.events == old(engine.generator.events) + e.events
            && (r.Fail? <==> e.error.Some?)
            && (r.Fail? ==> r.error == e.error.value)
  {
    var flags := Entries(engine.generator.isActive);
    ghost var start, reg, events0 := engine.Now(), engine.Reg(), engine.generator.events;
    var i := 0;
    r := Pass;
    while i < |flags| && r.Pass?
      invariant 0 <= i <= |flags|
      invariant engine.Valid() && engine.Reg() == reg && engine.activeBonuses == old(engine.activeBonuses)
      invariant engine.Now() == TickAll(reg, start, flags[..i], delta).world
      invariant engine.generator.events == events0 + TickAll(reg, start, flags[..i], delta).events
      invariant r.Fail? <==> TickAll(reg, start, flags[..i], delta).error.Some?
      invariant r.Fail? ==> r.error == TickAll(reg, start, flags[..i], delta).error.value
    {
      r := TickNext(engine, start, events0, flags, i, delta);
      i := i + 1;
    }
    if r.Fail? {
      TickAllStops(reg, start, flags, i, delta);
    } else {
      assert flags[..i] == flags;
    }
  }
}
