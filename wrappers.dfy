/** Small shared definitions: optional values, the outcome of a REST route, and `Math.min`. */
module Wrappers {

  /** An optional value; `None` stands for an absent key, JavaScript's `undefined` (a stored `null` is not modelled). */
  datatype Option<+T> = None | Some(value: T)

  /**
   * The outcome of an Express route body, without the HTTP plumbing:
   * `Ok` is a 200 reply carrying its JSON body, `NotFound` a 404 and
   * `BadRequest` a 400, each with the message the route puts in its body.
   */
  datatype RouteResult<+T> = Ok(body: T) | NotFound(message: string) | BadRequest(message: string)

  /** `Math.min` of two integers. */
  function Min(a: int, b: int): int
  {
    if a <= b then a else b
  }
}
