/**
 * The one `fetch` each operation performs, abstracted to what the source reads
 * back from it: either the call throws, or a response arrives with a status,
 * a status text and a body.
 */
module Http {

  datatype FetchOutcome =
    | Threw(message: string)
    | Responded(status: nat, statusText: string, body: string)
  {
    /** `response.ok`: the status is in the 2xx range. */
    predicate Ok()
      requires Responded?
    {
      200 <= status <= 299
    }
  }
}
