/** The generator plugin: a per-id active/inactive state machine over loaded
    generator definitions (packages/ludiek/src/plugins/generator). The tick,
    which needs the engine, is in module GeneratorTick. */
module Generators {
  import opened Values
  import opened Records

  /** A generator: what it produces, and optionally what it consumes and which
      conditions must hold. */
  datatype GeneratorDefinition = GeneratorDefinition(
    id: string,
    output: Items,
    input: Option<Items>,
    conditions: Option<Items>)

  /** The three reasons a tick of one active generator can fail. */
  datatype TickFailReason = ConditionsNotMet | CannotConsumeInput | CannotProduceOutput

  /** The four event streams of the plugin, kept as one log in dispatch order. */
  datatype GeneratorEvent =
    | Activated(generatorId: string, definition: GeneratorDefinition)
    | Deactivated(generatorId: string, definition: GeneratorDefinition)
    | TickFailed(generatorId: string, reason: TickFailReason)
    | Ticked(generatorId: string, definition: GeneratorDefinition, delta: real,
             inputConsumed: Option<Items>, outputProduced: Items)

  /** The plugin's saved state: the `isActive` object. */
  type ActiveFlags = Record<bool>

  /** `isActive[id]` read as a boolean: a missing key reads as false. */
  function IsOn(isActive: ActiveFlags, id: string): bool
  {
    id in isActive.entries && isActive.entries[id]
  }

  /** `supportsGenerator(id)`: a definition was loaded under `id`. */
  function Supports(generators: map<string, GeneratorDefinition>, id: string): bool
  {
    id in generators
  }

  /** `validate(id)`: throws UnknownGeneratorError for an id with no definition. */
  function Validate(generators: map<string, GeneratorDefinition>, id: string): (r: Outcome)
    ensures r == Pass <==> Supports(generators, id)
    ensures r.Fail? ==> r.error == UnknownGenerator(id)
  {
    if Supports(generators, id) then Pass else Fail(UnknownGenerator(id))
  }

  /** `isGeneratorActive(id)`: validates, then reads the flag. */
  function ActiveQuery(generators: map<string, GeneratorDefinition>, isActive: ActiveFlags, id: string): (r: Result<bool>)
    ensures r.Err? <==> !Supports(generators, id)
    ensures r.Err? ==> r.error == UnknownGenerator(id)
    ensures r.Ok? ==> r.value == IsOn(isActive, id)
  {
    match Validate(generators, id)
    case Fail(e) => Err(e)
    case Pass => Ok(IsOn(isActive, id))
  }

  /** The flags after a switch and the events it dispatched. */
  datatype Switch = Switch(isActive: ActiveFlags, emitted: seq<GeneratorEvent>)

  /** `activateGenerator(id)` (on = true) and `deactivateGenerator(id)` (on = false):
      validate, set the flag, and dispatch the matching event only when the flag
      actually changed. */
  function SetActive(generators: map<string, GeneratorDefinition>, isActive: ActiveFlags, id: string, on: bool): (r: Result<Switch>)
    ensures r.Err? <==> !Supports(generators, id)
    ensures r.Err? ==> r.error == UnknownGenerator(id)
  {
    match Validate(generators, id)
    case Fail(e) => Err(e)
    case Pass =>
      var was := IsOn(isActive, id);
      var event := if on then Activated(id, generators[id]) else Deactivated(id, generators[id]);
      Ok(Switch(isActive.Put(id, on), if was == on then [] else [event]))
  }

  /** A switch that succeeds leaves the flag as asked, keeps every other flag,
      keeps the flags well formed, and dispatches exactly one event, the one
      matching the new flag, when the flag changed and none otherwise. */
  lemma SetActiveSwitches(generators: map<string, GeneratorDefinition>, isActive: ActiveFlags, id: string, on: bool)
    requires SetActive(generators, isActive, id, on).Ok?
    ensures var s := SetActive(generators, isActive, id, on).value;
            && IsOn(s.isActive, id) == on
            && (forall k :: k != id ==> (k in s.isActive.entries <==> k in isActive.entries))
            && (forall k :: k != id && k in isActive.entries ==> s.isActive.entries[k] == isActive.entries[k])
            && (isActive.Valid() ==> s.isActive.Valid())
            && (s.emitted == [] <==> IsOn(isActive, id) == on)
            && (on && !IsOn(isActive, id) ==> s.emitted == [Activated(id, generators[id])])
            && (!on && IsOn(isActive, id) ==> s.emitted == [Deactivated(id, generators[id])])
  {
  }

  /** Switching a generator to the state it is already in changes nothing and
      dispatches nothing; in particular a second activation is silent. */
  lemma SetActiveIdempotent(generators: map<string, GeneratorDefinition>, isActive: ActiveFlags, id: string, on: bool)
    requires isActive.Valid()
    requires SetActive(generators, isActive, id, on).Ok?
    ensures var first := SetActive(generators, isActive, id, on).value;
            && SetActive(generators, first.isActive, id, on) == Ok(Switch(first.isActive, []))
  {
    var first := SetActive(generators, isActive, id, on).value;
    assert first.isActive.Put(id, on) == first.isActive;
  }

  /** Scales every item's amount by `delta`, keeping its tag, its id, the order
      of the items and the single-or-array shape (`scaleInput`/`scaleOutput`). */
  function Scale(items: Items, delta: real): (r: Items)
    ensures r.One? <==> items.One?
    ensures |r.Normalized()| == |items.Normalized()|
    ensures forall i :: 0 <= i < |r.Normalized()| ==>
              && r.Normalized()[i].tag == items.Normalized()[i].tag
              && r.Normalized()[i].id == items.Normalized()[i].id
              && r.Normalized()[i].amount == items.Normalized()[i].amount * delta
  {
    match items
    case One(p) => One(p.(amount := p.amount * delta))
    case Many(ps) => Many(seq(|ps|, i requires 0 <= i < |ps| => ps[i].(amount := ps[i].amount * delta)))
  }

  /** Scaling by 1 changes nothing. */
  lemma ScaleByOne(items: Items)
    ensures Scale(items, 1.0) == items
  {
    var r := Scale(items, 1.0);
    if items.Many? {
      assert r.items == items.items;
    }
  }

  /** Scaling twice is scaling once by the product. */
  lemma ScaleTwice(items: Items, a: real, b: real)
    ensures Scale(Scale(items, a), b) == Scale(items, a * b)
  {
    var twice, once := Scale(Scale(items, a), b), Scale(items, a * b);
    if items.Many? {
      forall i | 0 <= i < |items.items|
        ensures twice.items[i] == once.items[i]
      {
        var p := items.items[i];
        assert p.amount * a * b == p.amount * (a * b);
      }
      assert twice.items == once.items;
    } else {
      assert items.item.amount * a * b == items.item.amount * (a * b);
    }
  }

  /** The ids a batch of definitions loads. */
  function Ids(content: seq<GeneratorDefinition>): set<string>
  {
    set d | d in content :: d.id
  }

  /** Appending a definition adds its id. */
  lemma IdsSnoc(front: seq<GeneratorDefinition>, d: GeneratorDefinition)
    ensures Ids(front + [d]) == Ids(front) + {d.id}
  {
    var all := front + [d];
    assert forall x :: x in all <==> x in front || x == d;
  }

  /** No definition after index i in the batch carries the same id. */
  ghost predicate LastOfId(content: seq<GeneratorDefinition>, i: int)
    requires 0 <= i < |content|
  {
    forall j :: i < j < |content| ==> content[j].id != content[i].id
  }

  /** The definitions after `loadContent(content)`: each one is assigned in turn
      under its id. */
  function LoadDefinitions(generators: map<string, GeneratorDefinition>, content: seq<GeneratorDefinition>): map<string, GeneratorDefinition>
    decreases |content|
  {
    if content == [] then generators
    else
      var d := content[|content| - 1];
      LoadDefinitions(generators, content[..|content| - 1])[d.id := d]
  }

  /** The flags after `loadContent(content)`: each id is set to false in turn. */
  function LoadFlags(isActive: ActiveFlags, content: seq<GeneratorDefinition>): ActiveFlags
    decreases |content|
  {
    if content == [] then isActive
    else LoadFlags(isActive, content[..|content| - 1]).Put(content[|content| - 1].id, false)
  }

  /** Loading registers every definition under its id, a later definition with
      the same id wins, and every generator loaded before keeps its definition. */
  lemma {:induction false} LoadDefinitionsRegisters(generators: map<string, GeneratorDefinition>, content: seq<GeneratorDefinition>)
    ensures LoadDefinitions(generators, content).Keys == generators.Keys + Ids(content)
    ensures forall id :: id in generators && id !in Ids(content) ==> LoadDefinitions(generators, content)[id] == generators[id]
    ensures forall i :: 0 <= i < |content| && LastOfId(content, i) ==> LoadDefinitions(generators, content)[content[i].id] == content[i]
    decreases |content|
  {
    if content != [] {
      var n := |content| - 1;
      var front := content[..n];
      var before := LoadDefinitions(generators, front);
      var after := LoadDefinitions(generators, content);
      LoadDefinitionsRegisters(generators, front);
      assert content == front + [content[n]];
      IdsSnoc(front, content[n]);
      assert after == before[content[n].id := content[n]];
      assert after.Keys == generators.Keys + Ids(content);
      forall id | id in generators && id !in Ids(content)
        ensures after[id] == generators[id]
      {
        assert id !in Ids(front) && id != content[n].id;
      }
      forall i | 0 <= i < |content| && LastOfId(content, i)
        ensures after[content[i].id] == content[i]
      {
        if i < n {
          LastOfIdFront(content, i);
          assert front[i] == content[i];
        }
      }
    }
  }

  /** A definition last of its id in a batch is last of its id in the batch
      without its final definition, and differs in id from that final one. */
  lemma LastOfIdFront(content: seq<GeneratorDefinition>, i: int)
    requires 0 <= i < |content| - 1 && LastOfId(content, i)
    ensures LastOfId(content[..|content| - 1], i)
    ensures content[|content| - 1].id != content[i].id
  {
  }

  /** Loading keeps the flags well formed, adds a flag for every loaded id and
      leaves every other flag as it was. */
  lemma {:induction false} LoadFlagsKeeps(isActive: ActiveFlags, content: seq<GeneratorDefinition>)
    requires isActive.Valid()
    ensures LoadFlags(isActive, content).Valid()
    ensures LoadFlags(isActive, content).entries.Keys == isActive.entries.Keys + Ids(content)
    ensures forall id :: id in isActive.entries && id !in Ids(content) ==> LoadFlags(isActive, content).entries[id] == isActive.entries[id]
    decreases |content|
  {
    if content != [] {
      var n := |content| - 1;
      var front := content[..n];
      LoadFlagsKeeps(isActive, front);
      assert content == front + [content[n]];
      IdsSnoc(front, content[n]);
    }
  }

  /** Loading leaves every loaded generator inactive, even one that was active. */
  lemma {:induction false} LoadFlagsDeactivates(isActive: ActiveFlags, content: seq<GeneratorDefinition>)
    ensures forall i :: 0 <= i < |content| ==> !IsOn(LoadFlags(isActive, content), content[i].id)
    decreases |content|
  {
    if content != [] {
      var n := |content| - 1;
      var front := content[..n];
      LoadFlagsDeactivates(isActive, front);
      forall i | 0 <= i < |content|
        ensures !IsOn(LoadFlags(isActive, content), content[i].id)
      {
        if i < n {
          assert content[i] == front[i];
        }
      }
    }
  }

  class GeneratorPlugin {
    const name: string
    var generators: map<string, GeneratorDefinition>
    var isActive: ActiveFlags
    ghost var events: seq<GeneratorEvent>

    ghost predicate Valid()
      reads this
    {
      && name == "generator"
      && isActive.Valid()
      && forall id :: id in generators ==> generators[id].id == id
    }

    /** `new GeneratorPlugin(state)`: no definitions yet, the given flags. */
    constructor (state: ActiveFlags)
      requires state.Valid()
      ensures Valid()
      ensures generators == map[] && isActive == state && events == []
    {
      name := "generator";
      generators := map[];
      isActive := state;
      events := [];
    }

    /** `loadContent`: registers every definition under its id and sets its
        flag to false (LoadDefinitionsRegisters, LoadFlagsKeeps, LoadFlagsDeactivates). */
    method LoadContent(content: seq<GeneratorDefinition>)
      requires Valid()
      modifies this
      ensures Valid() && events == old(events)
      ensures generators == LoadDefinitions(old(generators), content)
      ensures isActive == LoadFlags(old(isActive), content)
    {
      var i := 0;
      while i < |content|
        invariant 0 <= i <= |content|
        invariant Valid() && events == old(events)
        invariant generators == LoadDefinitions(old(generators), content[..i])
        invariant isActive == LoadFlags(old(isActive), content[..i])
      {
        var d := content[i];
        assert content[..i + 1][..i] == content[..i];
        generators := generators[d.id := d];
        isActive := isActive.Put(d.id, false);
        i := i + 1;
      }
      assert content[..i] == content;
    }

    /** `supportsGenerator(id)`: true exactly for a loaded id, the test
        `validate` makes; a valid plugin holds that id's own definition there. */
    function SupportsGenerator(id: string): (r: bool)
      reads this
      ensures r <==> Validate(generators, id) == Pass
      ensures r && Valid() ==> generators[id].id == id
    {
      Supports(generators, id)
    }

    /** `getGenerator(id)`: the definition loaded under `id`, or UnknownGeneratorError. */
    function GetGenerator(id: string): (r: Result<GeneratorDefinition>)
      reads this
      ensures r.Err? <==> !SupportsGenerator(id)
      ensures r.Err? ==> r.error == UnknownGenerator(id)
      ensures r.Ok? ==> r.value == generators[id]
    {
      match Validate(generators, id)
      case Fail(e) => Err(e)
      case Pass => Ok(generators[id])
    }

    /** `isGeneratorActive(id)`: UnknownGeneratorError for an id that was not
        loaded, otherwise its current flag (an absent flag reads as false). */
    function IsGeneratorActive(id: string): (r: Result<bool>)
      reads this
      ensures r.Err? <==> !SupportsGenerator(id)
      ensures r.Err? ==> r.error == UnknownGenerator(id)
      ensures r.Ok? ==> r.value == IsOn(isActive, id)
    {
      ActiveQuery(generators, isActive, id)
    }

    /** `activateGenerator(id)`: on an unknown id it throws before any change;
        otherwise it sets the flag and dispatches GeneratorActivated only if the
        generator was inactive. */
    method ActivateGenerator(id: string) returns (r: Outcome)
      requires Valid()
      modifies this
      ensures Valid() && generators == old(generators)
      ensures match SetActive(old(generators), old(isActive), id, true)
              case Err(e) => r == Fail(e) && isActive == old(isActive) && events == old(events)
              case Ok(s) => r == Pass && isActive == s.isActive && events == old(events) + s.emitted
    {
      r := Validate(generators, id);
      if r.Fail? {
        return;
      }
      var wasActive := IsOn(isActive, id);
      isActive := isActive.Put(id, true);
      if !wasActive {
        events := events + [Activated(id, generators[id])];
      }
    }

    /** `deactivateGenerator(id)`: on an unknown id it throws before any change;
        otherwise it clears the flag and dispatches GeneratorDeactivated only if
        the generator was active. */
    method DeactivateGenerator(id: string) returns (r: Outcome)
      requires Valid()
      modifies this
      ensures Valid() && generators == old(generators)
      ensures match SetActive(old(generators), old(isActive), id, false)
              case Err(e) => r == Fail(e) && isActive == old(isActive) && events == old(events)
              case Ok(s) => r == Pass && isActive == s.isActive && events == old(events) + s.emitted
    {
      r := Validate(generators, id);
      if r.Fail? {
        return;
      }
      var wasActive := IsOn(isActive, id);
      isActive := isActive.Put(id, false);
      if wasActive {
        events := events + [Deactivated(id, generators[id])];
      }
    }

    /** The state the engine saves for this plugin. */
    function Save(): ActiveFlags
      reads this
    {
      isActive
    }

    /** Installs saved flags; definitions are content, not state, and stay. */
    method Load(state: ActiveFlags)
      requires Valid() && state.Valid()
      modifies this
      ensures Valid() && isActive == state
      ensures generators == old(generators) && events == old(events)
    {
      isActive := state;
    }
  }
}
