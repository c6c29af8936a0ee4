/**
 * Webhook dispatch: the supported action types, the two target URLs read
 * from the environment, the `{actionType, data, timestamp}` envelope and the
 * boolean outcome of one POST.
 */
module Webhooks {
  import opened Wrappers
  import opened Json
  import opened Http

  /** The closed set of action types `executeWebhook` accepts. */
  datatype SupportedAction = ScheduleFollowup | SendLabOrder

  function ActionName(a: SupportedAction): string
  {
    match a
    case ScheduleFollowup => "SCHEDULE_FOLLOWUP"
    case SendLabOrder => "SEND_LAB_ORDER"
  }

  function ParseAction(s: string): (r: Option<SupportedAction>)
    ensures r.Some? ==> ActionName(r.value) == s
  {
    if s == "SCHEDULE_FOLLOWUP" then Some(ScheduleFollowup)
    else if s == "SEND_LAB_ORDER" then Some(SendLabOrder)
    else None
  }

  /** Every supported type's name reads back as that type. */
  lemma ActionNameRoundTrip(a: SupportedAction)
    ensures ParseAction(ActionName(a)) == Some(a)
  {
  }

  /** The two environment variables, `WEBHOOK_URL_LAB_ORDER` and `WEBHOOK_URL_FOLLOW_UP`. */
  datatype Environment = Environment(labOrderUrl: Option<string>, followUpUrl: Option<string>)

  /** `process.env.X || fallback`: an unset or empty variable gives the fallback. */
  function EnvOr(v: Option<string>, fallback: string): (r: string)
    ensures v.Some? && v.value != "" ==> r == v.value
    ensures v.None? || v.value == "" ==> r == fallback
  {
    if v.Some? && v.value != "" then v.value else fallback
  }

  const DefaultLabOrderUrl := "https://webhook.site/lab-order"
  const DefaultFollowUpUrl := "https://webhook.site/follow-up"

  /** `WEBHOOK_URLS.LAB_ORDER` and `WEBHOOK_URLS.FOLLOW_UP`. */
  function LabOrderUrl(env: Environment): string { EnvOr(env.labOrderUrl, DefaultLabOrderUrl) }
  function FollowUpUrl(env: Environment): string { EnvOr(env.followUpUrl, DefaultFollowUpUrl) }

  /** The envelope posted to a webhook; `timestamp` is the ISO clock reading, taken as a parameter. */
  datatype WebhookPayload = WebhookPayload(actionType: string, data: Json, timestamp: string)

  /** One POST: where it went and what it carried. */
  datatype WebhookCall = WebhookCall(url: string, payload: WebhookPayload)

  /** What `executeWebhook` did: the POSTs it issued and the boolean it returned. */
  datatype WebhookRun = WebhookRun(calls: seq<WebhookCall>, delivered: bool)

  /** The URL a supported type is sent to: the lab-order URL for `SEND_LAB_ORDER`, else the follow-up URL. */
  function WebhookUrl(env: Environment, a: SupportedAction): (url: string)
    ensures a == SendLabOrder ==> url == LabOrderUrl(env)
    ensures a != SendLabOrder ==> url == FollowUpUrl(env)
  {
    if a == SendLabOrder then LabOrderUrl(env) else FollowUpUrl(env)
  }

  /**
   * `executeWebhook(type, data)` with the fetch abstracted to `outcome`:
   * exactly one POST of the envelope naming `type` and carrying `data`
   * unchanged; the result is `response.ok`, and `false` when the call throws.
   */
  function ExecuteWebhook(env: Environment, a: SupportedAction, data: map<string, Json>, timestamp: string,
                          outcome: FetchOutcome): (run: WebhookRun)
    ensures |run.calls| == 1
    ensures run.calls[0].url == WebhookUrl(env, a)
    ensures ParseAction(run.calls[0].payload.actionType) == Some(a)
    ensures run.calls[0].payload.data == JObject(data) && run.calls[0].payload.timestamp == timestamp
    ensures run.delivered <==> outcome.Responded? && 200 <= outcome.status <= 299
  {
    var call := WebhookCall(WebhookUrl(env, a), WebhookPayload(ActionName(a), JObject(data), timestamp));
    match outcome
    case Threw(_) => WebhookRun([call], false)
    case Responded(_, _, _) => WebhookRun([call], outcome.Ok())
  }

  /** A transport failure is reported as `false`, after the one attempt. */
  lemma ThrownIsNotDelivered(env: Environment, a: SupportedAction, data: map<string, Json>, timestamp: string, message: string)
    ensures !ExecuteWebhook(env, a, data, timestamp, Threw(message)).delivered
    ensures |ExecuteWebhook(env, a, data, timestamp, Threw(message)).calls| == 1
  {
  }

  /** With the variables unset, a lab order goes to the lab-order default and a follow-up to the follow-up default. */
  lemma DefaultTargets(a: SupportedAction)
    ensures WebhookUrl(Environment(None, None), a) ==
            if a == SendLabOrder then DefaultLabOrderUrl else DefaultFollowUpUrl
  {
  }
}
