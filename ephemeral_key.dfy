/**
 * `fetchEphemeralKey`: asks the key endpoint for a short-lived credential,
 * naming the participant's speech language in a request header, and checks the
 * shape of the answer before handing its `ephemeral_key` object back.
 */
module EphemeralKey {
  import opened Wrappers
  import opened Json
  import opened Http
  import Text

  /** The request the function sends: only its `Language` header varies. */
  datatype KeyRequest = KeyRequest(language: string)

  /** What one call produces: the request it sent and the key or the error it threw. */
  datatype KeyFetch = KeyFetch(request: KeyRequest, result: Result<Json, string>)

  /** The speech language for a role: Spanish for the patient, English for every other role. */
  function LanguageFor(role: string): string
  {
    if role != "patient" then "en-US" else "es-ES"
  }

  /** The message of the error thrown for a non-OK response. */
  function StatusError(status: nat, statusText: string, body: string): string
  {
    "Failed to fetch ephemeral key: " + Text.NatToString(status) + " " + statusText + " - " + body
  }

  const InvalidFormat := "Invalid ephemeral key format received from server."

  /** The body holds a truthy `ephemeral_key` whose `value` is truthy too. */
  predicate WellFormedKey(body: map<string, Json>)
  {
    && Truthy(if "ephemeral_key" in body then Some(body["ephemeral_key"]) else None)
    && Truthy(Property(body["ephemeral_key"], "value"))
  }

  /**
   * One call of `fetchEphemeralKey(role)`. `response` is what the `fetch`
   * produced; `decoded` is what `response.json()` produced (a decoded object,
   * or the message it threw). Every error is rethrown, never replaced by a
   * default key.
   */
  function FetchEphemeralKey(role: string, response: FetchOutcome, decoded: Result<map<string, Json>, string>): (f: KeyFetch)
    ensures f.request.language == LanguageFor(role)
    ensures response.Threw? ==> f.result == Failure(response.message)
    ensures response.Responded? && !response.Ok() ==>
      f.result == Failure(StatusError(response.status, response.statusText, response.body))
    ensures response.Responded? && response.Ok() && decoded.Failure? ==> f.result == Failure(decoded.error)
    ensures f.result.Success? <==>
      response.Responded? && response.Ok() && decoded.Success? && WellFormedKey(decoded.value)
    ensures f.result.Success? ==>
      && f.result.value == decoded.value["ephemeral_key"]
      && Truthy(Property(f.result.value, "value"))
    ensures response.Responded? && response.Ok() && decoded.Success? && !WellFormedKey(decoded.value) ==>
      f.result == Failure(InvalidFormat)
  {
    var request := KeyRequest(LanguageFor(role));
    var result :=
      match response
      case Threw(message) => Failure(message)
      case Responded(status, statusText, body) =>
        if !response.Ok() then Failure(StatusError(status, statusText, body))
        else if decoded.Failure? then Failure(decoded.error)
        else if !WellFormedKey(decoded.value) then Failure(InvalidFormat)
        else Success(decoded.value["ephemeral_key"]);
    KeyFetch(request, result)
  }

  /** The patient is served in Spanish; clinicians and everyone else in English. */
  lemma RoleLanguage(role: string, response: FetchOutcome, decoded: Result<map<string, Json>, string>)
    ensures FetchEphemeralKey("patient", response, decoded).request.language == "es-ES"
    ensures role != "patient" ==> FetchEphemeralKey(role, response, decoded).request.language == "en-US"
  {
  }
}
