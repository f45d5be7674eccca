/** What a handler answers: the `Results.*` value it returns, or the exception
    it ends in. Status codes and bodies on the wire are not modelled. */
module Results {

  /** The exceptions a handler can end in. */
  datatype Exception =
    | InvalidOperation  // no signed-in person could be resolved for a rating request
    | ArgumentNull      // the artist request carried no profile photo to decode
    | DbUpdate          // the store refused to save a row (a missing required foreign key)
    | NullReference     // a song whose owning artist could not be loaded

  /** `Results.Ok(body)`, `Results.Created()`, `Results.NoContent()`, `Results.NotFound()`,
      or an exception thrown out of the handler. */
  datatype Reply<+T> =
    | Ok(body: T)
    | Created
    | NoContent
    | NotFound
    | Fault(exception: Exception)
}
