/** Plain values shared by the whole engine: payloads, the one-or-many shape the
    engine accepts, the error taxonomy, and the wrappers that carry an error. */
module Values {

  datatype Option<T> = None | Some(value: T)

  /** Every error the modelled code raises. The five not-found errors carry the
      offending tag and the keys that were registered at the time, which the
      source lists in its message. */
  datatype Error =
    | ConditionNotFound(tag: string, registered: set<string>)
    | InputNotFound(tag: string, registered: set<string>)
    | OutputNotFound(tag: string, registered: set<string>)
    | ControllerNotFound(tag: string, registered: set<string>)
    | ModifierNotFound(tag: string, registered: set<string>)
    | UnknownGenerator(id: string)
    | UnknownUpgrade(id: string)
    | LevelMismatch(id: string, costs: nat, bonuses: nat)

  /** A value or the error that was thrown instead of returning it. */
  datatype Result<T> = Ok(value: T) | Err(error: Error)

  /** The result of an operation that returns nothing: it completed or it threw. */
  datatype Outcome = Pass | Fail(error: Error)

  /** A condition, input, output, request or bonus: a record tagged by `tag`
      (the source's `type` field) with an `id` and an `amount`. Payloads are
      values, so handing a copy to `modify` can never change the caller's one. */
  datatype Payload = Payload(tag: string, id: string, amount: real)

  /** The engine accepts a single payload or an array of them. */
  datatype Items = One(item: Payload) | Many(items: seq<Payload>)
  {
    /** The array the engine iterates over: a single payload becomes a
        one-element array, an array is kept as it is. */
    function Normalized(): (r: seq<Payload>)
      ensures One? ==> r == [item]
      ensures Many? ==> r == items
    {
      match this
      case One(p) => [p]
      case Many(ps) => ps
    }
  }

  /** Concatenation is associative; stated once so that long event logs need
      not be compared element by element. */
  lemma AppendAssoc<T>(a: seq<T>, b: seq<T>, c: seq<T>)
    ensures (a + b) + c == a + (b + c)
  {
  }
}
