/** notify.js's `handler`: one invocation, from the API key to the value it
    returns, as the sequence of outbound calls it makes and its result. What
    the network answers (the two API calls, every probe's completion, the
    webhook POST), the clock and the log link are inputs. */
module Handler {
  import opened Wrappers
  import opened Text
  import opened Request
  import opened UptimeRobot
  import opened Slack
  import opened Probes

  const NoApiKeyMessage := "No uptime robot API key"
  const NoWebhookMessage := "No Slack webhook contact"
  const SendFailedMessage := "Slack send failed!"
  const InvalidUrlMessage := "Invalid URL"

  /** The response object returned to the host on success. */
  datatype Reply = Reply(statusCode: int, headers: map<string, string>, body: string)

  const OkReply := Reply(200, map["Content-Type" := JsonType], "{\"status\":\"OK\"}")

  /** An outbound call the handler makes. */
  datatype Call =
    | GetMonitors(apiKey: string)
    | ProbeTls(target: Target)
    | GetAlertContacts(apiKey: string)
    | PostMessage(url: string, message: Message, request: Outgoing)

  /** How the invocation ends: a value returned (the success reply or an
      `Error` object, which the handler returns rather than throws), a
      rejection with what an `await` threw, or a crash of the process by an
      exception that escaped into a response callback. */
  datatype HandlerResult = Returned(reply: Reply) | ReturnedError(message: string) | Rejects(fault: Fault) | Crash

  datatype Run = Run(calls: seq<Call>, result: HandlerResult)

  /** The event's `queryStringParameters.apiKey`, the log link built from the
      context (absent without a log group), and the clock's ISO timestamp. */
  datatype Invocation = Invocation(apiKey: Option<string>, logLink: Option<string>, timestamp: string)

  /** What the outside world does during one run: the answer to
      `getMonitors`, the probe callbacks in the order they ran before the
      join, the answer to `getAlertContacts`, the answer to the webhook
      POST, and `JSON.stringify` of a message. */
  datatype World = World(
    monitors: Arrival<Option<Envelope<Monitor>>>,
    completions: seq<Completion>,
    contacts: Arrival<Option<Envelope<AlertContact>>>,
    webhook: Arrival<()>,
    stringify: Message -> JsonText)

  /** The request that posts a message whose `JSON.stringify` text is
      `json`: a POST carrying the automatic JSON headers. */
  function WebhookRequest(json: JsonText): (o: Outgoing)
    ensures o.verb == "POST" && o.payload == Some(json)
    ensures o.headers == map["Content-Type" := JsonType, "Content-Length" := NatToString(|json|)]
  {
    Prepare(Some("POST"), Some(ObjectBody(json)), map[])
  }

  function ProbeCalls(ts: seq<Target>): (calls: seq<Call>)
    ensures |calls| == |ts| && forall i :: 0 <= i < |ts| ==> calls[i] == ProbeTls(ts[i])
  {
    if ts == [] then [] else [ProbeTls(ts[0])] + ProbeCalls(ts[1..])
  }

  /** `calls` made before a later stage of the run. */
  function After(calls: seq<Call>, run: Run): Run {
    Run(calls + run.calls, run.result)
  }

  /** One invocation of `handler`: the API-key check, then `getAllMonitors`.
      Without an API key the handler returns its error before any request;
      with one, it always asks for the monitors first. */
  function Handle(inv: Invocation, w: World): (run: Run)
    ensures run.calls == [] <==> !Truthy(inv.apiKey)
    ensures !Truthy(inv.apiKey) ==> run.result == ReturnedError(NoApiKeyMessage)
    ensures Truthy(inv.apiKey) ==> run.calls[0] == GetMonitors(inv.apiKey.value)
  {
    if !Truthy(inv.apiKey) then Run([], ReturnedError(NoApiKeyMessage))
    else
      var key := inv.apiKey.value;
      match GetAllMonitors(Settled(w.monitors))
      case NeverSettles => Run([GetMonitors(key)], Crash)
      case Threw(fault) => Run([GetMonitors(key)], Rejects(fault))
      case Fetched(monitors) => After([GetMonitors(key)], ProbeStage(key, monitors, inv, w))
  }

  /** The fan-out: one probe per selected monitor whose URL parses. */
  function ProbeStage(key: string, monitors: seq<Monitor>, inv: Invocation, w: World): (run: Run)
    ensures var ts := Targets(SelectMonitors(monitors));
            |ts| <= |run.calls| && run.calls[..|ts|] == ProbeCalls(ts)
  {
    var selected := SelectMonitors(monitors);
    JoinStage(ProbeCalls(Targets(selected)), AllLocated(selected), Notify(key, inv, w))
  }

  /** The join of the probes: it rejects when some selected URL did not
      parse, and goes on to the notification stage `notify` otherwise. */
  function JoinStage(probes: seq<Call>, located: bool, notify: Run): (run: Run)
    ensures |probes| <= |run.calls| && run.calls[..|probes|] == probes
    ensures forall j :: |probes| <= j < |run.calls| ==>
              located && j - |probes| < |notify.calls| && run.calls[j] == notify.calls[j - |probes|]
  {
    if !located then
      assert probes[|probes|..] == [];
      Run(probes, Rejects(ErrorObject(InvalidUrlMessage)))
    else
      After(probes, notify)
  }

  /** The message built from the recorded failures, if there is one. */
  function MessageOf(inv: Invocation, w: World): Option<Message> {
    var fs := Failures(w.completions);
    BuildMessage(Accumulated(fs), FailureLines(fs), inv.logLink, inv.timestamp)
  }

  /** After the join: the notification stage on what this run's world
      answers. */
  function Notify(key: string, inv: Invocation, w: World): Run {
    NotifyStage(key, MessageOf(inv, w), GetSlackWebhook(Settled(w.contacts)), Settled(w.webhook), w.stringify)
  }

  /** The calls the notification stage can make: the contact lookup, then
      at most one post. */
  predicate NotifyShape(key: string, run: Run) {
    run.calls == [GetAlertContacts(key)] ||
    (|run.calls| == 2 && run.calls[0] == GetAlertContacts(key) && run.calls[1].PostMessage?)
  }

  /** Look up the webhook, and post `message` to it when there is one;
      `lookup` is what `getSlackWebhook` gives, `posted` how the POST
      settles and `stringify` is `JSON.stringify`. */
  function NotifyStage(key: string, message: Option<Message>, lookup: Fetch<Option<string>>,
                       posted: Settlement<()>, stringify: Message -> JsonText): (run: Run)
    ensures NotifyShape(key, run)
    ensures forall j :: 0 <= j < |run.calls| ==> run.calls[j].GetAlertContacts? || run.calls[j].PostMessage?
  {
    var looked := [GetAlertContacts(key)];
    match lookup
    case NeverSettles => Run(looked, Crash)
    case Threw(fault) => Run(looked, Rejects(fault))
    case Fetched(url) =>
      if !Truthy(url) then Run(looked, ReturnedError(NoWebhookMessage))
      else if message.None? then Run(looked, Returned(OkReply))
      else
        var request := WebhookRequest(stringify(message.value));
        var sent := looked + [PostMessage(url.value, message.value, request)];
        match posted
        case Resolved(_) => Run(sent, Returned(OkReply))
        case Rejected(_) => Run(sent, ReturnedError(SendFailedMessage))
        case Uncaught => Run(sent, Crash)
  }

  /** The stage posts exactly when the lookup found a non-empty URL and
      there is a message; it posts that message, to that URL, as a POST
      whose payload is the message's JSON text. */
  lemma PostsFoundUrl(key: string, message: Option<Message>, lookup: Fetch<Option<string>>,
                      posted: Settlement<()>, stringify: Message -> JsonText)
    ensures |NotifyStage(key, message, lookup, posted, stringify).calls| == 2 <==>
              lookup.Fetched? && Truthy(lookup.value) && message.Some?
    ensures |NotifyStage(key, message, lookup, posted, stringify).calls| == 2 ==>
              NotifyStage(key, message, lookup, posted, stringify).calls[1] ==
                PostMessage(lookup.value.value, message.value, WebhookRequest(stringify(message.value)))
  {
  }

  /** The monitor list, when `getAllMonitors` returns one and every selected
      monitor's URL parses, so that the run goes on to the contact lookup. */
  predicate ProbesJoin(inv: Invocation, w: World) {
    && Truthy(inv.apiKey)
    && GetAllMonitors(Settled(w.monitors)).Fetched?
    && AllLocated(SelectMonitors(GetAllMonitors(Settled(w.monitors)).value))
  }

  /** The webhook lookup answered with a URL. */
  predicate WebhookFound(inv: Invocation, w: World) {
    ProbesJoin(inv, w) && GetSlackWebhook(Settled(w.contacts)).Fetched? &&
    GetSlackWebhook(Settled(w.contacts)).value.Some?
  }

  /** Only monitors with an HTTPS URL whose status is up are probed, each
      on its target. */
  lemma {:induction false} OnlyHttpsUpMonitorsProbed(inv: Invocation, w: World, i: nat)
    requires i < |Handle(inv, w).calls| && Handle(inv, w).calls[i].ProbeTls?
    ensures GetAllMonitors(Settled(w.monitors)).Fetched?
    ensures exists m :: m in GetAllMonitors(Settled(w.monitors)).value && IsHttps(m) && IsUp(m) &&
                        TargetOf(m) == Some(Handle(inv, w).calls[i].target)
  {
    assert Truthy(inv.apiKey);
    assert GetAllMonitors(Settled(w.monitors)).Fetched?;
    CallsAfterFetch(inv, w);
    var key := inv.apiKey.value;
    var selected := SelectMonitors(GetAllMonitors(Settled(w.monitors)).value);
    var ts := Targets(selected);
    var notify := Notify(key, inv, w);
    assert NotifyShape(key, notify);
    AfterJoinProbe(key, ProbeCalls(ts), AllLocated(selected), notify, i);
    assert ts[i - 1] in ts;
    TargetsComeFromMonitors(selected);
  }

  /** Once the monitors are fetched, a probe call is one of the fan-out's:
      the notification stage makes none. */
  lemma AfterJoinProbe(key: string, probes: seq<Call>, located: bool, notify: Run, i: nat)
    requires NotifyShape(key, notify)
    requires i < |After([GetMonitors(key)], JoinStage(probes, located, notify)).calls|
    requires After([GetMonitors(key)], JoinStage(probes, located, notify)).calls[i].ProbeTls?
    ensures 1 <= i <= |probes|
    ensures After([GetMonitors(key)], JoinStage(probes, located, notify)).calls[i] == probes[i - 1]
  {
    var join := JoinStage(probes, located, notify);
    assert 1 <= i && join.calls[i - 1] == After([GetMonitors(key)], join).calls[i];
  }

  /** The calls of a run that fetched the monitor list: the monitor request,
      then the calls of the fan-out and what follows it. */
  lemma CallsAfterFetch(inv: Invocation, w: World)
    requires Truthy(inv.apiKey) && GetAllMonitors(Settled(w.monitors)).Fetched?
    ensures var selected := SelectMonitors(GetAllMonitors(Settled(w.monitors)).value);
            Handle(inv, w) == After([GetMonitors(inv.apiKey.value)],
                                    JoinStage(ProbeCalls(Targets(selected)), AllLocated(selected), Notify(inv.apiKey.value, inv, w)))
  {
  }

  /** A post is the last call of the run, made by the notification stage
      after every selected URL parsed. */
  lemma {:induction false} PostIsNotifyPost(inv: Invocation, w: World, i: nat)
    requires i < |Handle(inv, w).calls| && Handle(inv, w).calls[i].PostMessage?
    ensures ProbesJoin(inv, w)
    ensures i == |Handle(inv, w).calls| - 1
    ensures |Notify(inv.apiKey.value, inv, w).calls| == 2
    ensures Handle(inv, w).calls[i] == Notify(inv.apiKey.value, inv, w).calls[1]
  {
    assert Truthy(inv.apiKey);
    assert GetAllMonitors(Settled(w.monitors)).Fetched?;
    CallsAfterFetch(inv, w);
    var key := inv.apiKey.value;
    var selected := SelectMonitors(GetAllMonitors(Settled(w.monitors)).value);
    var notify := Notify(key, inv, w);
    assert NotifyShape(key, notify);
    AfterJoinPost(key, ProbeCalls(Targets(selected)), AllLocated(selected), notify, i);
  }

  /** A message is posted only when some probe failed, and it is the message
      built from the recorded failures; it is the last call of the run. */
  lemma {:induction false} PostOnlyWithFailures(inv: Invocation, w: World, i: nat)
    requires i < |Handle(inv, w).calls| && Handle(inv, w).calls[i].PostMessage?
    ensures WebhookFound(inv, w)
    ensures Failures(w.completions) != []
    ensures i == |Handle(inv, w).calls| - 1
    ensures var fs := Failures(w.completions);
            Some(Handle(inv, w).calls[i].message) == BuildMessage(Accumulated(fs), FailureLines(fs), inv.logLink, inv.timestamp)
  {
    PostIsNotifyPost(inv, w, i);
    NotifyPostsBuiltMessage(inv.apiKey.value, inv, w);
  }

  /** A post goes to the webhook URL the contact lookup found, as a POST
      whose payload is the message's JSON text. */
  lemma {:induction false} PostGoesToWebhook(inv: Invocation, w: World, i: nat)
    requires i < |Handle(inv, w).calls| && Handle(inv, w).calls[i].PostMessage?
    ensures GetSlackWebhook(Settled(w.contacts)).Fetched? && GetSlackWebhook(Settled(w.contacts)).value.Some?
    ensures Handle(inv, w).calls[i].url == GetSlackWebhook(Settled(w.contacts)).value.value
    ensures Handle(inv, w).calls[i].request == WebhookRequest(w.stringify(Handle(inv, w).calls[i].message))
  {
    PostIsNotifyPost(inv, w, i);
    NotifyPostsToWebhook(inv.apiKey.value, inv, w);
  }

  /** Once the monitors are fetched, a post can only be the second call of
      the notification stage, and the last call of all. */
  lemma AfterJoinPost(key: string, probes: seq<Call>, located: bool, notify: Run, i: nat)
    requires forall k :: 0 <= k < |probes| ==> probes[k].ProbeTls?
    requires NotifyShape(key, notify)
    requires i < |After([GetMonitors(key)], JoinStage(probes, located, notify)).calls|
    requires After([GetMonitors(key)], JoinStage(probes, located, notify)).calls[i].PostMessage?
    ensures located && |notify.calls| == 2
    ensures i == |After([GetMonitors(key)], JoinStage(probes, located, notify)).calls| - 1
    ensures After([GetMonitors(key)], JoinStage(probes, located, notify)).calls[i] == notify.calls[1]
  {
    var join := JoinStage(probes, located, notify);
    assert 1 <= i && join.calls[i - 1] == After([GetMonitors(key)], join).calls[i];
    assert |probes| <= i - 1 && located;
    assert join.calls == probes + notify.calls;
  }

  /** The probe callbacks are those of the probes this run started. */
  predicate ProbesComplete(inv: Invocation, w: World) {
    ProbesJoin(inv, w) &&
    CompletionsFor(w.completions, Targets(SelectMonitors(GetAllMonitors(Settled(w.monitors)).value)))
  }

  /** Every failure the message reports is that of a probe the run made. */
  lemma {:induction false} PostedFailuresWereProbed(inv: Invocation, w: World)
    requires ProbesComplete(inv, w)
    ensures forall f :: f in Failures(w.completions) ==>
              exists t, e :: ProbeTls(t) in Handle(inv, w).calls && f == FailureFor(t, e)
  {
    var ts := Targets(SelectMonitors(GetAllMonitors(Settled(w.monitors)).value));
    CallsAfterFetch(inv, w);
    FailuresOfProbedTargets(w.completions, ts);
    ProbesInJoin(inv.apiKey.value, ts, true, inv, w);
  }

  /** Every target is probed by the join stage. */
  lemma {:induction false} ProbesInJoin(key: string, ts: seq<Target>, located: bool, inv: Invocation, w: World)
    ensures forall t :: t in ts ==> ProbeTls(t) in JoinStage(ProbeCalls(ts), located, Notify(key, inv, w)).calls
  {
    var calls := JoinStage(ProbeCalls(ts), located, Notify(key, inv, w)).calls;
    forall t | t in ts ensures ProbeTls(t) in calls {
      var k :| 0 <= k < |ts| && ts[k] == t;
      assert calls[..|ts|][k] == ProbeTls(t);
    }
  }

  /** When every probe callback is a successful connect, nothing is posted. */
  lemma {:induction false} AllConnectedNoPost(inv: Invocation, w: World)
    requires forall k :: 0 <= k < |w.completions| ==> w.completions[k].outcome.Connected?
    ensures forall i :: 0 <= i < |Handle(inv, w).calls| ==> !Handle(inv, w).calls[i].PostMessage?
  {
    NoFailuresIffAllConnected(w.completions);
    forall i | 0 <= i < |Handle(inv, w).calls| ensures !Handle(inv, w).calls[i].PostMessage? {
      if Handle(inv, w).calls[i].PostMessage? {
        PostOnlyWithFailures(inv, w, i);
        assert false;
      }
    }
  }

  /** The notification stage posts only a message built from failures. */
  lemma {:induction false} NotifyPostsBuiltMessage(key: string, inv: Invocation, w: World)
    requires |Notify(key, inv, w).calls| == 2
    ensures GetSlackWebhook(Settled(w.contacts)).Fetched? && GetSlackWebhook(Settled(w.contacts)).value.Some?
    ensures Failures(w.completions) != []
    ensures var fs := Failures(w.completions);
            Some(Notify(key, inv, w).calls[1].message) == BuildMessage(Accumulated(fs), FailureLines(fs), inv.logLink, inv.timestamp)
  {
    PostsFoundUrl(key, MessageOf(inv, w), GetSlackWebhook(Settled(w.contacts)), Settled(w.webhook), w.stringify);
    MessageIffFailures(Failures(w.completions), inv.logLink, inv.timestamp);
  }

  /** The notification stage posts to the URL the lookup found, with the
      request `request(url, {method: "POST", body: message})` prepares. */
  lemma {:induction false} NotifyPostsToWebhook(key: string, inv: Invocation, w: World)
    requires |Notify(key, inv, w).calls| == 2
    ensures GetSlackWebhook(Settled(w.contacts)).Fetched? && GetSlackWebhook(Settled(w.contacts)).value.Some?
    ensures Notify(key, inv, w).calls[1].url == GetSlackWebhook(Settled(w.contacts)).value.value
    ensures Notify(key, inv, w).calls[1].request == WebhookRequest(w.stringify(Notify(key, inv, w).calls[1].message))
  {
    PostsFoundUrl(key, MessageOf(inv, w), GetSlackWebhook(Settled(w.contacts)), Settled(w.webhook), w.stringify);
  }

  /** With no failures there is nothing to post: once the webhook is found
      the handler returns the OK reply without a POST. */
  lemma {:induction false} NoFailuresNoPost(inv: Invocation, w: World)
    requires WebhookFound(inv, w) && Failures(w.completions) == []
    ensures Handle(inv, w).result == Returned(OkReply)
    ensures forall c :: c in Handle(inv, w).calls ==> !c.PostMessage?
  {
    var selected := SelectMonitors(GetAllMonitors(Settled(w.monitors)).value);
    CallsAfterFetch(inv, w);
    JoinWithoutFailures(inv.apiKey.value, ProbeCalls(Targets(selected)), inv, w);
  }

  /** Past the join, with a webhook and no failure: the contact lookup is
      the last call and the reply is OK. */
  lemma JoinWithoutFailures(key: string, probes: seq<Call>, inv: Invocation, w: World)
    requires forall k :: 0 <= k < |probes| ==> probes[k].ProbeTls?
    requires GetSlackWebhook(Settled(w.contacts)).Fetched? && GetSlackWebhook(Settled(w.contacts)).value.Some?
    requires Failures(w.completions) == []
    ensures JoinStage(probes, true, Notify(key, inv, w)) == Run(probes + [GetAlertContacts(key)], Returned(OkReply))
    ensures forall c :: c in [GetMonitors(key)] + probes + [GetAlertContacts(key)] ==> !c.PostMessage?
  {
    WebhookUrlNotEmpty(FetchList(Settled(w.contacts)).value);
    assert Truthy(GetSlackWebhook(Settled(w.contacts)).value);
    MessageIffFailures(Failures(w.completions), inv.logLink, inv.timestamp);
    assert MessageOf(inv, w).None?;
    assert Notify(key, inv, w) == Run([GetAlertContacts(key)], Returned(OkReply));
  }

  /** Without a webhook contact the handler returns "No Slack webhook
      contact", also when nothing failed, after all probes were made. */
  lemma NoWebhookContact(inv: Invocation, w: World)
    requires ProbesJoin(inv, w)
    requires GetSlackWebhook(Settled(w.contacts)) == Fetched(None)
    ensures Handle(inv, w).result == ReturnedError(NoWebhookMessage)
    ensures Handle(inv, w).calls ==
              [GetMonitors(inv.apiKey.value)] +
              ProbeCalls(Targets(SelectMonitors(GetAllMonitors(Settled(w.monitors)).value))) +
              [GetAlertContacts(inv.apiKey.value)]
  {
  }

  /** The result of a run that reached the webhook with failures to report:
      the OK reply when the POST resolves, "Slack send failed!" when it
      rejects. */
  lemma {:induction false} SendOutcome(inv: Invocation, w: World)
    requires WebhookFound(inv, w) && Failures(w.completions) != []
    ensures Settled(w.webhook).Resolved? ==> Handle(inv, w).result == Returned(OkReply)
    ensures Settled(w.webhook).Rejected? ==> Handle(inv, w).result == ReturnedError(SendFailedMessage)
    ensures Handle(inv, w).calls[|Handle(inv, w).calls| - 1].PostMessage?
  {
    var selected := SelectMonitors(GetAllMonitors(Settled(w.monitors)).value);
    CallsAfterFetch(inv, w);
    JoinWithFailures(inv.apiKey.value, ProbeCalls(Targets(selected)), inv, w);
  }

  /** Past the join, with a webhook and some failure: the post is the last
      call, and its settlement decides the result. */
  lemma JoinWithFailures(key: string, probes: seq<Call>, inv: Invocation, w: World)
    requires GetSlackWebhook(Settled(w.contacts)).Fetched? && GetSlackWebhook(Settled(w.contacts)).value.Some?
    requires Failures(w.completions) != []
    ensures var run := JoinStage(probes, true, Notify(key, inv, w));
            && |run.calls| == |probes| + 2 && run.calls[|probes| + 1].PostMessage?
            && (Settled(w.webhook).Resolved? ==> run.result == Returned(OkReply))
            && (Settled(w.webhook).Rejected? ==> run.result == ReturnedError(SendFailedMessage))
  {
    WebhookUrlNotEmpty(FetchList(Settled(w.contacts)).value);
    MessageIffFailures(Failures(w.completions), inv.logLink, inv.timestamp);
    var notify := Notify(key, inv, w);
    assert |notify.calls| == 2;
    assert JoinStage(probes, true, Notify(key, inv, w)).calls == probes + notify.calls;
  }

  /** The OK reply is returned exactly when the run reached the webhook and
      either had nothing to post or posted successfully. */
  lemma {:induction false} OkExactly(inv: Invocation, w: World)
    ensures Handle(inv, w).result.Returned? <==>
              WebhookFound(inv, w) && (Failures(w.completions) == [] || Settled(w.webhook).Resolved?)
    ensures Handle(inv, w).result.Returned? ==> Handle(inv, w).result.reply == OkReply
  {
    if WebhookFound(inv, w) {
      WebhookUrlNotEmpty(FetchList(Settled(w.contacts)).value);
      MessageIffFailures(Failures(w.completions), inv.logLink, inv.timestamp);
    }
  }

  /** An envelope `{stat: "fail", error: {message: "invalid key"}}` for the
      monitor list fails the invocation with that message before any probe. */
  lemma InvalidKeyStopsBeforeProbes(inv: Invocation, w: World, items: seq<Monitor>)
    requires Truthy(inv.apiKey)
    requires w.monitors.Arrived? && 200 <= w.monitors.statusCode <= 399
    requires w.monitors.contentType == Some(JsonType)
    requires w.monitors.parsed == Some(Some(Envelope(Some("fail"), Some("invalid key"), items)))
    ensures Handle(inv, w) == Run([GetMonitors(inv.apiKey.value)], Rejects(ErrorObject("invalid key")))
  {
  }

  /** A selected monitor whose URL does not parse makes the handler reject
      with "Invalid URL" once every probe has been started; the contact list
      is never fetched. */
  lemma {:induction false} UnparsableUrlRejects(inv: Invocation, w: World)
    requires Truthy(inv.apiKey) && GetAllMonitors(Settled(w.monitors)).Fetched?
    requires !AllLocated(SelectMonitors(GetAllMonitors(Settled(w.monitors)).value))
    ensures Handle(inv, w).result == Rejects(ErrorObject(InvalidUrlMessage))
    ensures Handle(inv, w).calls ==
              [GetMonitors(inv.apiKey.value)] + ProbeCalls(Targets(SelectMonitors(GetAllMonitors(Settled(w.monitors)).value)))
    ensures forall c :: c in Handle(inv, w).calls ==> !c.GetAlertContacts? && !c.PostMessage?
  {
    var key := inv.apiKey.value;
    var probes := ProbeCalls(Targets(SelectMonitors(GetAllMonitors(Settled(w.monitors)).value)));
    assert Handle(inv, w).calls == [GetMonitors(key)] + probes;
  }

  /** A monitor fetch that throws rejects the invocation with what it threw,
      and one that never settles crashes it; either way the monitor request
      is the only call. */
  lemma MonitorFetchFails(inv: Invocation, w: World)
    requires Truthy(inv.apiKey) && !GetAllMonitors(Settled(w.monitors)).Fetched?
    ensures Handle(inv, w).calls == [GetMonitors(inv.apiKey.value)]
    ensures GetAllMonitors(Settled(w.monitors)).Threw? ==>
              Handle(inv, w).result == Rejects(GetAllMonitors(Settled(w.monitors)).fault)
    ensures GetAllMonitors(Settled(w.monitors)).NeverSettles? ==> Handle(inv, w).result == Crash
  {
  }

  /** A contact fetch that throws rejects the invocation with what it threw,
      and one that never settles crashes it; either way the calls end with
      the lookup, after the monitor request and all probes. */
  lemma ContactFetchFails(inv: Invocation, w: World)
    requires ProbesJoin(inv, w) && !GetSlackWebhook(Settled(w.contacts)).Fetched?
    ensures Handle(inv, w).calls ==
              [GetMonitors(inv.apiKey.value)] +
              ProbeCalls(Targets(SelectMonitors(GetAllMonitors(Settled(w.monitors)).value))) +
              [GetAlertContacts(inv.apiKey.value)]
    ensures GetSlackWebhook(Settled(w.contacts)).Threw? ==>
              Handle(inv, w).result == Rejects(GetSlackWebhook(Settled(w.contacts)).fault)
    ensures GetSlackWebhook(Settled(w.contacts)).NeverSettles? ==> Handle(inv, w).result == Crash
  {
  }

  /** The key error is returned exactly when the API key is missing or
      empty. */
  lemma {:induction false} NoApiKeyExactly(inv: Invocation, w: World)
    ensures Handle(inv, w).result == ReturnedError(NoApiKeyMessage) <==> !Truthy(inv.apiKey)
  {
  }

  /** The invocation rejects exactly when a fetch throws or a selected URL
      does not parse. */
  lemma {:induction false} RejectsExactly(inv: Invocation, w: World)
    ensures Handle(inv, w).result.Rejects? <==>
              Truthy(inv.apiKey) &&
              (GetAllMonitors(Settled(w.monitors)).Threw? ||
               (GetAllMonitors(Settled(w.monitors)).Fetched? &&
                (!AllLocated(SelectMonitors(GetAllMonitors(Settled(w.monitors)).value)) ||
                 GetSlackWebhook(Settled(w.contacts)).Threw?)))
  {
    if ProbesJoin(inv, w) && GetSlackWebhook(Settled(w.contacts)).Fetched? {
      WebhookUrlNotEmpty(FetchList(Settled(w.contacts)).value);
      MessageIffFailures(Failures(w.completions), inv.logLink, inv.timestamp);
    }
  }

  /** "No Slack webhook contact" is returned exactly when the run reached
      the lookup and no contact holds a Slack webhook. */
  lemma {:induction false} NoWebhookExactly(inv: Invocation, w: World)
    ensures Handle(inv, w).result == ReturnedError(NoWebhookMessage) <==>
              ProbesJoin(inv, w) && GetSlackWebhook(Settled(w.contacts)) == Fetched(None)
  {
    if ProbesJoin(inv, w) && GetSlackWebhook(Settled(w.contacts)).Fetched? {
      WebhookUrlNotEmpty(FetchList(Settled(w.contacts)).value);
      MessageIffFailures(Failures(w.completions), inv.logLink, inv.timestamp);
    }
  }

  /** "Slack send failed!" is returned exactly when there was a message to
      post to the webhook found and the post was rejected. */
  lemma {:induction false} SendFailedExactly(inv: Invocation, w: World)
    ensures Handle(inv, w).result == ReturnedError(SendFailedMessage) <==>
              WebhookFound(inv, w) && Failures(w.completions) != [] && Settled(w.webhook).Rejected?
  {
    if ProbesJoin(inv, w) && GetSlackWebhook(Settled(w.contacts)).Fetched? {
      WebhookUrlNotEmpty(FetchList(Settled(w.contacts)).value);
      MessageIffFailures(Failures(w.completions), inv.logLink, inv.timestamp);
    }
  }

  /** The invocation crashes exactly when one of the three requests never
      settles: a fetch, or the post of a message. */
  lemma {:induction false} CrashCases(inv: Invocation, w: World)
    ensures Handle(inv, w).result.Crash? <==>
              Truthy(inv.apiKey) &&
              (GetAllMonitors(Settled(w.monitors)).NeverSettles? ||
               (ProbesJoin(inv, w) &&
                (GetSlackWebhook(Settled(w.contacts)).NeverSettles? ||
                 (WebhookFound(inv, w) && Failures(w.completions) != [] && Settled(w.webhook).Uncaught?))))
  {
    if ProbesJoin(inv, w) && GetSlackWebhook(Settled(w.contacts)).Fetched? {
      WebhookUrlNotEmpty(FetchList(Settled(w.contacts)).value);
      MessageIffFailures(Failures(w.completions), inv.logLink, inv.timestamp);
    }
  }
}
