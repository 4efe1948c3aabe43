/** The bonus table the engine keeps between ticks, how `collectBonuses` fills
    it and how `getBonus` reduces it (packages/ludiek/src/engine/LudiekEngine.ts:203-246). */
module Bonuses {
  import opened Values
  import opened Records
  import opened Extensions

  /** One plugin's contributions, grouped by the identity `stringify` gives them. */
  type Slot = map<string, seq<Payload>>

  /** `_activeBonuses`: a slot per plugin name, in insertion order. */
  type Table = Record<Slot>

  /** `record[identifier] ?? []` */
  function Lookup(slot: Slot, id: string): seq<Payload>
  {
    if id in slot then slot[id] else []
  }

  /** The contributions filed under identity `id` in the slot of plugin `n`. */
  function SlotLookup(slots: map<string, Slot>, n: string, id: string): seq<Payload>
  {
    if n in slots then Lookup(slots[n], id) else []
  }

  /** `lists.flat()`: the lists one after another. */
  function Flatten<T>(lists: seq<seq<T>>): seq<T>
    decreases |lists|
  {
    if lists == [] then [] else Flatten(lists[..|lists| - 1]) + lists[|lists| - 1]
  }

  /** Flattening a list that starts with `head` puts `head` first. */
  lemma {:induction false} FlattenCons<T>(head: seq<T>, lists: seq<seq<T>>)
    ensures Flatten([head] + lists) == head + Flatten(lists)
    decreases |lists|
  {
    if lists != [] {
      var n := |lists| - 1;
      assert ([head] + lists)[..|lists|] == [head] + lists[..n];
      FlattenCons(head, lists[..n]);
    }
  }

  /** The contributions to identity `id` across all slots, slot by slot
      (`Object.values(_activeBonuses).flatMap(...)`). */
  function Gather(names: seq<string>, slots: map<string, Slot>, id: string): (r: seq<Payload>)
    ensures forall b :: b in r <==> exists n :: n in names && b in SlotLookup(slots, n, id)
  {
    if names == [] then []
    else
      var rest := Gather(names[1..], slots, id);
      assert forall n :: n in names[1..] ==> n in names;
      assert forall n :: n in names ==> n == names[0] || n in names[1..];
      SlotLookup(slots, names[0], id) + rest
  }

  /** Gathering is the `flatMap` it stands for: each slot's list in full,
      duplicates kept, the slots in the order of `names`. */
  lemma {:induction false} GatherFlattens(names: seq<string>, slots: map<string, Slot>, id: string)
    ensures Gather(names, slots, id) == Flatten(seq(|names|, i requires 0 <= i < |names| => SlotLookup(slots, names[i], id)))
    decreases |names|
  {
    if names != [] {
      var lists := seq(|names|, i requires 0 <= i < |names| => SlotLookup(slots, names[i], id));
      var tail := seq(|names| - 1, i requires 0 <= i < |names| - 1 => SlotLookup(slots, names[1..][i], id));
      assert lists == [SlotLookup(slots, names[0], id)] + tail;
      GatherFlattens(names[1..], slots, id);
      FlattenCons(SlotLookup(slots, names[0], id), tail);
    }
  }

  /** `values.reduce((sum, m) => sum + m.amount, start)` */
  function FoldAdd(start: real, vs: seq<Payload>): real
    decreases |vs|
  {
    if vs == [] then start else FoldAdd(start + vs[0].amount, vs[1..])
  }

  /** `values.reduce((sum, m) => sum * (1 + m.amount), start)` */
  function FoldMul(start: real, vs: seq<Payload>): real
    decreases |vs|
  {
    if vs == [] then start else FoldMul(start * (1.0 + vs[0].amount), vs[1..])
  }

  /** The sum of the amounts. */
  function Sum(vs: seq<Payload>): real
  {
    if vs == [] then 0.0 else vs[0].amount + Sum(vs[1..])
  }

  /** The product of one plus each amount. */
  function Growth(vs: seq<Payload>): real
  {
    if vs == [] then 1.0 else (1.0 + vs[0].amount) * Growth(vs[1..])
  }

  lemma {:induction false} FoldAddIsSum(start: real, vs: seq<Payload>)
    ensures FoldAdd(start, vs) == start + Sum(vs)
    decreases |vs|
  {
    if vs != [] {
      FoldAddIsSum(start + vs[0].amount, vs[1..]);
    }
  }

  lemma {:induction false} FoldMulIsGrowth(start: real, vs: seq<Payload>)
    ensures FoldMul(start, vs) == start * Growth(vs)
    decreases |vs|
  {
    if vs != [] {
      FoldMulIsGrowth(start * (1.0 + vs[0].amount), vs[1..]);
    }
  }

  /** `getBonus(bonus)`: the modifier for the bonus's tag names its identity;
      the contributions to that identity from every slot are added to the
      modifier's default, or each multiplies it by one plus its amount; an
      unknown variant gives 0. An unregistered tag throws ModifierNotFoundError. */
  function GetBonus(reg: Registry, table: Table, bonus: Payload): (r: Result<real>)
    requires table.Valid()
    ensures r.Err? <==> bonus.tag !in reg.modifiers
    ensures r.Err? ==> r.error == ModifierNotFound(bonus.tag, reg.modifiers.Keys)
    ensures r.Ok? ==>
              var m := reg.modifiers[bonus.tag];
              var values := Gather(table.Order(), table.entries, m.stringify(bonus));
              match m.variant
              case Additive => r.value == m.default + Sum(values)
              case Multiplicative => r.value == m.default * Growth(values)
              case UnknownVariant(_) => r.value == 0.0
  {
    match GetModifier(reg, bonus.tag)
    case Err(e) => Err(e)
    case Ok(m) =>
      var values := Gather(table.Order(), table.entries, m.stringify(bonus));
      match m.variant
      case Additive =>
        FoldAddIsSum(m.default, values);
        Ok(FoldAdd(m.default, values))
      case Multiplicative =>
        FoldMulIsGrowth(m.default, values);
        Ok(FoldMul(m.default, values))
      case UnknownVariant(_) => Ok(0.0)
  }

  /** The identity of a bonus whose modifier is registered. */
  function Identity(reg: Registry, b: Payload): string
    requires b.tag in reg.modifiers
  {
    reg.modifiers[b.tag].stringify(b)
  }

  /** The bonuses among `bs` with identity `id`, in order. */
  function Matching(reg: Registry, bs: seq<Payload>, id: string): seq<Payload>
    requires forall b :: b in bs ==> b.tag in reg.modifiers
    decreases |bs|
  {
    if bs == [] then []
    else
      var b := bs[|bs| - 1];
      Matching(reg, bs[..|bs| - 1], id) + (if Identity(reg, b) == id then [b] else [])
  }

  /** A slot being filled, and the error that stopped the filling if one did. */
  datatype Grouping = Grouping(slot: Slot, error: Option<Error>)

  /** Adding one bonus to a slot: push onto its identity's list, or start the
      list; an unregistered tag throws ModifierNotFoundError. */
  function GroupStep(reg: Registry, g: Grouping, b: Payload): Grouping
    requires g.error.None?
  {
    match GetModifier(reg, b.tag)
    case Err(e) => g.(error := Some(e))
    case Ok(m) =>
      var id := m.stringify(b);
      Grouping(g.slot[id := Lookup(g.slot, id) + [b]], None)
  }

  /** The inner loop of `collectBonuses`: each bonus of one plugin in turn. */
  function Group(reg: Registry, slot: Slot, bs: seq<Payload>): Grouping
    decreases |bs|
  {
    if bs == [] then Grouping(slot, None)
    else
      var g := Group(reg, slot, bs[..|bs| - 1]);
      if g.error.Some? then g else GroupStep(reg, g, bs[|bs| - 1])
  }

  /** Grouping bonuses whose modifiers are all registered never fails, and
      each identity ends up with exactly the bonuses of that identity, in
      the order the plugin returned them. */
  lemma {:induction false} GroupCollects(reg: Registry, slot: Slot, bs: seq<Payload>)
    requires forall b :: b in bs ==> b.tag in reg.modifiers
    ensures Group(reg, slot, bs).error.None?
    ensures forall id :: Lookup(Group(reg, slot, bs).slot, id) == Lookup(slot, id) + Matching(reg, bs, id)
    decreases |bs|
  {
    if bs != [] {
      var front := bs[..|bs| - 1];
      var b := bs[|bs| - 1];
      assert forall x :: x in front ==> x in bs;
      GroupCollects(reg, slot, front);
      var g := Group(reg, slot, front);
      var key := Identity(reg, b);
      assert GetModifier(reg, b.tag) == Ok(reg.modifiers[b.tag]);
      assert Group(reg, slot, bs) == Grouping(g.slot[key := Lookup(g.slot, key) + [b]], None);
      forall id
        ensures Lookup(Group(reg, slot, bs).slot, id) == Lookup(slot, id) + Matching(reg, bs, id)
      {
        assert Matching(reg, bs, id) == Matching(reg, front, id) + (if key == id then [b] else []);
      }
    }
  }

  /** Grouping stops at the first bonus whose modifier is not registered:
      the error is reported and the slot keeps what the bonuses before it put in. */
  lemma {:induction false} GroupStopsAt(reg: Registry, slot: Slot, bs: seq<Payload>, i: nat)
    requires i < |bs| && bs[i].tag !in reg.modifiers
    requires Group(reg, slot, bs[..i]).error.None?
    ensures Group(reg, slot, bs) == Group(reg, slot, bs[..i]).(error := Some(ModifierNotFound(bs[i].tag, reg.modifiers.Keys)))
    decreases |bs|
  {
    var n := |bs| - 1;
    if n > i {
      var front := bs[..n];
      assert front[..i] == bs[..i];
      GroupStopsAt(reg, slot, front, i);
    } else {
      assert bs[..n] == bs[..i];
    }
  }

  /** The names of the engine's plugins, in registration order. */
  const PluginNames: seq<string> := ["generator", "upgrade"]

  /** `collectBonuses()` over the plugin list: the generator plugin has no
      bonuses, so its slot is reset to empty; the upgrade plugin's slot is
      reset and then filled with `bonuses`. */
  function Collect(reg: Registry, table: Table, bonuses: seq<Payload>): (r: (Table, Option<Error>))
    ensures var k := FirstMissing(reg, bonuses);
            r.1 == if k < |bonuses| then Some(ModifierNotFound(bonuses[k].tag, reg.modifiers.Keys)) else None
  {
    var g := Group(reg, map[], bonuses);
    GroupThrowsAtFirstMissing(reg, map[], bonuses);
    (Refill(table, g.slot), g.error)
  }

  /** The index of the first bonus whose modifier is not registered, or the
      number of bonuses when every one is. */
  function FirstMissing(reg: Registry, bs: seq<Payload>): (k: nat)
    ensures k <= |bs|
    ensures forall j :: 0 <= j < k ==> bs[j].tag in reg.modifiers
    ensures k < |bs| ==> bs[k].tag !in reg.modifiers
  {
    if bs == [] then 0
    else if bs[0].tag !in reg.modifiers then 0
    else 1 + FirstMissing(reg, bs[1..])
  }

  /** Grouping throws ModifierNotFound for the first bonus whose modifier is
      not registered, and throws nothing when there is none. */
  lemma GroupThrowsAtFirstMissing(reg: Registry, slot: Slot, bs: seq<Payload>)
    ensures var k := FirstMissing(reg, bs);
            Group(reg, slot, bs).error == if k < |bs| then Some(ModifierNotFound(bs[k].tag, reg.modifiers.Keys)) else None
  {
    var k := FirstMissing(reg, bs);
    if k == |bs| {
      GroupCollects(reg, slot, bs);
    } else {
      GroupCollects(reg, slot, bs[..k]);
      GroupStopsAt(reg, slot, bs, k);
    }
  }

  /** Both plugin slots reset, in plugin order, and then the upgrade slot
      given what its bonuses grouped into. */
  function Refill(table: Table, slot: Slot): Table
  {
    table.Put("generator", map[]).Put("upgrade", map[]).Put("upgrade", slot)
  }

  /** Collecting keeps the table well formed, leaves the slots of names that
      are not plugins as they were (for instance ones seeded at construction),
      and empties the generator slot. */
  lemma CollectResets(reg: Registry, table: Table, bonuses: seq<Payload>)
    requires table.Valid()
    ensures Collect(reg, table, bonuses).0.Valid()
    ensures forall n :: n in Collect(reg, table, bonuses).0.entries <==> n in table.entries || n in PluginNames
    ensures forall n :: n in table.entries && n !in PluginNames ==> Collect(reg, table, bonuses).0.entries[n] == table.entries[n]
    ensures Collect(reg, table, bonuses).0.entries["generator"] == map[]
  {
  }

  /** When every bonus's modifier is registered, collecting reports no error
      and fills the upgrade slot with exactly the upgrade bonuses per identity. */
  lemma CollectFills(reg: Registry, table: Table, bonuses: seq<Payload>)
    requires forall b :: b in bonuses ==> b.tag in reg.modifiers
    ensures Collect(reg, table, bonuses).1.None?
    ensures forall id :: Lookup(Collect(reg, table, bonuses).0.entries["upgrade"], id) == Matching(reg, bonuses, id)
  {
    GroupCollects(reg, map[], bonuses);
  }
}
