/** The JavaScript values and small containers the other modules share. */
module Values {

  datatype Option<+T> = None | Some(value: T)

  /**
   * A JavaScript value, as far as the transport looks at one: whether it is
   * undefined, null, falsy, or an `Error`. Everything else about it is opaque
   * and is carried unchanged. `InternalServerError` is the generic
   * `{ status: "error", message: "Internal server error" }`.
   */
  datatype Js =
    | Undefined
    | Null
    | Falsy(id: int)
    | Truthy(id: int)
    | ErrorInstance(id: int)
    | InternalServerError

  predicate IsTruthy(v: Js) {
    v.Truthy? || v.ErrorInstance? || v.InternalServerError?
  }

  predicate IsNullish(v: Js) {
    v.Undefined? || v.Null?
  }

  /** The value of a property that may be absent. */
  function Read(property: Option<Js>): Js {
    match property
    case None => Undefined
    case Some(v) => v
  }

  /** The `??` operator. */
  function Coalesce(v: Js, otherwise: Js): Js {
    if IsNullish(v) then otherwise else v
  }
}
