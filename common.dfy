/** Small value types shared by every module of the ledger model. */
module Common {

  /** A value that may be absent: a nullable column or an optional request field. */
  datatype Option<T> = None | Some(value: T)

  /** Identifiers generated by the store (UUID strings). */
  type Id = string

  /**
   * The outcome of a read-only request handler: a 200 payload, or the
   * HTTP status of the error reply the handler sends instead.
   */
  datatype Reply<T> = Success(value: T) | Failure(status: nat)

  /** Status codes the handlers answer with. */
  const Ok: nat := 200
  const Created: nat := 201
  const NoContent: nat := 204
  const BadRequest: nat := 400
  const NotFound: nat := 404
  const Conflict: nat := 409
}
