/** The monitoring-API client of notify.js: `getAllMonitors` and
    `getSlackWebhook`, from the settled `request` promise to the monitor list
    or the webhook URL. The form-encoded POST they send is not modelled; the
    JSON envelope the API answers with is an input, already parsed. */
module UptimeRobot {
  import opened Wrappers
  import opened Text
  import opened Request

  /** The substring that marks an alert contact as a Slack webhook. */
  const SlackHookMarker := "hooks.slack.com"

  /** The monitor `status` value the API uses for a monitor that is up. */
  const StatusUp := 2

  /** `url.port` of a parsed URL: empty when the URL gives no port (or gives
      the scheme's default port), otherwise the port as a canonical numeral. */
  type PortText = s: string | s == "" || IsCanonicalDecimal(s)

  /** What `new URL(url)` yields that the notifier reads. */
  datatype Location = Location(hostname: string, port: PortText)

  /** A monitor record from `getMonitors`. `location` is the parse of `url`,
      `None` when `new URL(url)` throws; the URL parser is not modelled. */
  datatype Monitor = Monitor(friendlyName: string, url: string, status: int, location: Option<Location>)

  /** An alert contact from `getAlertContacts`. */
  datatype AlertContact = AlertContact(contactType: int, value: string)

  /** The API's JSON envelope: `stat`, `error.message` and the payload list
      (`monitors` or `alert_contacts`). */
  datatype Envelope<T> = Envelope(stat: Option<string>, errorMessage: Option<string>, items: seq<T>)

  /** A parsed API response; `Parsed(None)` is JSON that is not an object. */
  type ApiResponse<T> = Response<Option<Envelope<T>>>

  /** What an `await` in the handler throws. */
  datatype Fault =
    | ErrorObject(message: string)                        // `new Error(message)`
    | ResponseObject(statusCode: int, statusMessage: string) // the response `request` rejected with
    | NetworkFault(reason: string)                        // the transport's `error` event

  /** The end of one API call as the handler sees it. */
  datatype Fetch<T> = Fetched(value: T) | Threw(fault: Fault) | NeverSettles

  function FaultOf<J>(cause: Rejection<J>): Fault {
    match cause
    case TransportFailure(reason) => NetworkFault(reason)
    case ErrorStatus(res) => ResponseObject(res.statusCode, res.statusMessage)
  }

  /** `res.body?.stat === "ok"`: a raw (non-JSON) body has no `stat`. */
  predicate StatOk<T>(body: ResponseBody<Option<Envelope<T>>>) {
    body.Parsed? && body.value.Some? && body.value.value.stat == Some("ok")
  }

  /** `new Error(res.body?.error?.message).message`: an undefined message
      leaves the error's message empty. */
  function ErrorMessageOf<T>(body: ResponseBody<Option<Envelope<T>>>): string {
    if body.Parsed? && body.value.Some? && body.value.value.errorMessage.Some?
    then body.value.value.errorMessage.value
    else ""
  }

  /** The two checks after `await request(...)`, in their order: an HTTP
      status above 399 first, then the envelope's `stat`. */
  function CheckEnvelope<T>(res: ApiResponse<T>): (r: Result<seq<T>, string>)
    ensures res.statusCode > 399 ==> r == Failure(NatToString(res.statusCode) + " " + res.statusMessage)
    ensures res.statusCode <= 399 && !StatOk(res.body) ==> r == Failure(ErrorMessageOf(res.body))
    ensures r.Success? <==> res.statusCode <= 399 && StatOk(res.body)
    ensures r.Success? ==> r.value == res.body.value.value.items
  {
    if res.statusCode > 399 then Failure(NatToString(res.statusCode) + " " + res.statusMessage)
    else if !StatOk(res.body) then Failure(ErrorMessageOf(res.body))
    else Success(res.body.value.value.items)
  }

  /** `await request(...)` followed by the envelope checks: the payload list,
      or what the `await` or the checks throw. */
  function FetchList<T>(s: Settlement<Option<Envelope<T>>>): (r: Fetch<seq<T>>)
    ensures r.NeverSettles? <==> s.Uncaught?
    ensures s.Rejected? ==> r == Threw(FaultOf(s.cause))
    ensures r.Fetched? <==> s.Resolved? && s.response.statusCode <= 399 && StatOk(s.response.body)
    ensures r.Fetched? ==> r.value == s.response.body.value.value.items
    ensures s.Resolved? && !r.Fetched? ==> r == Threw(ErrorObject(CheckEnvelope(s.response).error))
  {
    match s
    case Uncaught => NeverSettles
    case Rejected(cause) => Threw(FaultOf(cause))
    case Resolved(res) =>
      match CheckEnvelope(res)
      case Success(items) => Fetched(items)
      case Failure(message) => Threw(ErrorObject(message))
  }

  /** `getAllMonitors`: the monitor list, unfiltered. */
  function GetAllMonitors(s: Settlement<Option<Envelope<Monitor>>>): (r: Fetch<seq<Monitor>>)
    ensures r.Fetched? <==> s.Resolved? && s.response.statusCode <= 399 && StatOk(s.response.body)
    ensures r.Fetched? ==> r.value == s.response.body.value.value.items
  {
    FetchList(s)
  }

  /** `c.value.indexOf("hooks.slack.com") >= 0` */
  predicate IsSlackHook(c: AlertContact) {
    IndexOf(c.value, SlackHookMarker) >= 0
  }

  /** The position of the first Slack contact at or after `from`, or -1. */
  function FirstHookFrom(contacts: seq<AlertContact>, from: nat): (k: int)
    requires from <= |contacts|
    decreases |contacts| - from
    ensures k == -1 || (from <= k < |contacts| && IsSlackHook(contacts[k]))
    ensures forall j :: from <= j < (if k == -1 then |contacts| else k) ==> !IsSlackHook(contacts[j])
  {
    if from == |contacts| then -1
    else if IsSlackHook(contacts[from]) then from
    else FirstHookFrom(contacts, from + 1)
  }

  /** `alert_contacts.find((c) => c.value.indexOf("hooks.slack.com") >= 0)?.value` */
  function FindWebhook(contacts: seq<AlertContact>): (url: Option<string>)
    ensures url.None? <==> forall i :: 0 <= i < |contacts| ==> !IsSlackHook(contacts[i])
    ensures url.Some? ==>
              exists i :: 0 <= i < |contacts| && contacts[i].value == url.value && IsSlackHook(contacts[i]) &&
                          forall j :: 0 <= j < i ==> !IsSlackHook(contacts[j])
  {
    var k := FirstHookFrom(contacts, 0);
    if k < 0 then None else Some(contacts[k].value)
  }

  /** `getSlackWebhook`: the webhook URL, `None` when no contact is one. */
  function GetSlackWebhook(s: Settlement<Option<Envelope<AlertContact>>>): (r: Fetch<Option<string>>)
    ensures r.Fetched? <==> FetchList(s).Fetched?
    ensures r.Fetched? ==> r.value == FindWebhook(FetchList(s).value)
    ensures !r.Fetched? ==> r == match FetchList(s) case Threw(fault) => Threw(fault) case _ => NeverSettles
  {
    match FetchList(s)
    case Fetched(contacts) => Fetched(FindWebhook(contacts))
    case Threw(fault) => Threw(fault)
    case NeverSettles => NeverSettles
  }

  /** A URL found by the lookup contains the marker, so it is never empty and
      the handler's `if (!url)` rejects only a missing one. */
  lemma {:induction false} WebhookUrlNotEmpty(contacts: seq<AlertContact>)
    ensures FindWebhook(contacts).Some? ==> |FindWebhook(contacts).value| >= |SlackHookMarker|
  {
    var url := FindWebhook(contacts);
    if url.Some? {
      var i :| 0 <= i < |contacts| && contacts[i].value == url.value && IsSlackHook(contacts[i]);
      var k := IndexOf(contacts[i].value, SlackHookMarker);
      assert OccursAt(contacts[i].value, SlackHookMarker, k);
    }
  }

  /** `request` rejects every status outside 200..399 before the envelope
      checks run, so the `statusCode > 399` check never fires: an HTTP error
      reaches the handler as the rejected response object, not as an
      `Error("<code> <message>")`. */
  lemma HttpErrorIsRejectedResponse<T>(a: Arrival<Option<Envelope<T>>>)
    requires a.Arrived? && a.statusCode > 399
    ensures FetchList(Settled(a)) == NeverSettles ||
            FetchList(Settled(a)) == Threw(ResponseObject(a.statusCode, a.statusMessage))
  {
  }

  /** A status that `request` resolves is at most 399, so of the two checks
      only the `stat` check can fail. */
  lemma ResolvedStatusPassesHttpCheck<T>(a: Arrival<Option<Envelope<T>>>)
    requires Settled(a).Resolved?
    ensures Settled(a).response.statusCode <= 399
    ensures CheckEnvelope(Settled(a).response).Failure? ==>
              CheckEnvelope(Settled(a).response).error == ErrorMessageOf(Settled(a).response.body)
  {
  }

  /** An envelope `{stat: "fail", error: {message: "invalid key"}}` makes the
      call throw an error with exactly that message. */
  lemma FailedEnvelopeThrowsItsMessage<T>(code: int, statusMessage: string, contentType: string, chunks: seq<string>, items: seq<T>)
    requires 200 <= code <= 399 && IsJsonContentType(contentType)
    ensures var env := Envelope(Some("fail"), Some("invalid key"), items);
            FetchList(Settled(Arrived(code, statusMessage, Some(contentType), chunks, Some(Some(env)))))
              == Threw(ErrorObject("invalid key"))
  {
  }
}
