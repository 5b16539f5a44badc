# uptime-robot-ssl-notify in Dafny

A model of `notify.js`, the serverless handler that checks the TLS endpoints
of UptimeRobot monitors and reports the failures to Slack. One invocation:

1. Read the API key from the event. Without one, return an `Error`.
2. Fetch the monitor list from the UptimeRobot API and check its envelope.
3. Keep the monitors whose URL starts with `https://` and whose status is
   up (2). Open one TLS connection per kept monitor, on the URL's port or 443.
4. For each probe that fails, through the socket's `error` event or an
   exception from `tls.connect`, append a line to a `text` array. Also
   append the blocks built by `formatSlackBlocks` to a `blocks` array; a
   divider goes before every entry but the first.
5. When anything failed, build a Slack message: a summary section with
   the timestamp, the accumulated blocks, an optional log link, and a
   plain-text fallback.
6. Look up the first alert contact whose value contains `hooks.slack.com`.
   Without one, return an `Error`. With one, post the message (if there
   is a message) and return the `200 {"status":"OK"}` reply, or an
   `Error` if the post was rejected.

The modules follow the parts of the file:

- `Wrappers` (wrappers.dfy): `Option`, `Result`, and JavaScript
  truthiness of an optional string.
- `Sequences` (sequences.dfy): facts about sequences that do not depend on
  what they hold.
- `Text` (text.dfy): the string operations the file relies on.
  - `indexOf` and `startsWith`;
  - number printing and `parseInt`, proved inverse on canonical numerals;
  - `join`, and a `split` that gives the parts back;
  - `data += chunk`, on chunks that are already text.
- `Request` (request.dfy): the `request` helper.
  - `Prepare` builds the outgoing request: default method, automatic JSON
    headers that the caller's headers override, and the `timeout` option.
  - `Receive` is a loop over the body chunks.
  - `Finish` is the `end` callback: JSON parsing on the content type, then
    resolve on 200..399 and reject otherwise.
  - What the network delivers is an input (`Arrival`).
- `UptimeRobot` (uptime_robot.dfy): `getAllMonitors` and `getSlackWebhook`.
  - the envelope checks in their order;
  - the `find` of the webhook contact.
- `Slack` (slack.dfy): `formatSlackBlocks`, the layout of the accumulated
  blocks, and the final `message`.
- `Probes` (probes.dfy): the monitor filters, and the probe target of
  each kept monitor.
  - `FailureLog` is a class for the two shared arrays, filled by the
    failure callbacks.
  - `CollectFailures` runs the callbacks in completion order.
- `Handler` (handler.dfy): one invocation as the sequence of outbound calls
  it makes and the result it ends with.
  - Inputs: the answer to each API call, the probes' completions (in any
    order), the webhook's answer, `JSON.stringify` of a message, the clock's
    timestamp, and the log link.
  - The run is split into stages, after the monitor fetch: the probe fan-out
    (`ProbeStage`), the join (`JoinStage`), and the notification
    (`NotifyStage`). The notification stage is written on plain values: the
    message, the lookup's outcome and the POST's settlement.
  - `CompletionsFor` states that the completions are those of the started
    probes. `Handle` takes them as given; the lemmas that rely on it say so.

Some behaviour of the file as written is modelled as it is:

- A response without a `content-type` header makes
  `undefined.startsWith(...)` throw inside the `end` callback. So does a
  JSON body that `JSON.parse` refuses. Such an exception escapes the
  promise, which never settles (`Uncaught`, then `Crash` for the
  handler).
- `request` already rejects every status outside 200..399, so the
  `statusCode > 399` checks after it never fire. An HTTP error reaches the
  handler as the rejected response object.
- A selected monitor whose URL does not parse makes its probe promise
  reject. `Promise.all` then makes the handler reject before the contact
  lookup.
- The handler *returns* `Error` objects; it does not throw them.

## Model

| member | source | states |
|---|---|---|
| Text.IndexOf | notify.js:43 | the result is the first position where the marker occurs, and -1 exactly when it occurs nowhere |
| Text.NatToString | notify.js:90 | the printed number is a canonical numeral: digits only, with a leading zero only for 0 |
| Text.ParseNatToString | notify.js:165 | parsing a printed port gives the port back |
| Text.NatToStringParse | notify.js:165 | printing a parsed canonical port gives the same text back, so `parseInt` loses nothing on a URL port |
| Text.SplitJoin | notify.js:231 | joining lines that hold no newline with `"\n"`, then splitting on newlines, gives the lines back |
| Text.ConcatAppend | notify.js:100-104 | appending already-decoded text chunks one by one gives their concatenation, wherever the text was cut |
| Request.Prepare | notify.js:74-95 | payload absent exactly for no body or an empty string; with no payload, the headers are the caller's; otherwise the key set is the union with `Content-Type`/`Content-Length` and the caller's values win; the automatic values are `application/json` and the payload length; the method defaults to GET; the timeout is 10000 ms |
| Request.Finish | notify.js:105-118 | the callback throws exactly when the content type is missing, or is JSON and the parse fails; otherwise it resolves exactly on 200..399 with the response, and rejects with the response object |
| Request.Settled | notify.js:79-126 | a transport error, and only that, rejects with the error's reason; an arrived response is settled by the `end` callback on its concatenated body |
| Request.Receive | notify.js:96-119 | accumulating the chunks in a loop and finishing gives the settlement `Settled` defines |
| Request.RawBodyIsReceivedText | notify.js:100-112 | a non-JSON body is the concatenated text, on both the resolve and the reject path, and never throws |
| Request.JsonBodyIsParsed | notify.js:106-112 | a JSON body is replaced by its parse, on both paths |
| Request.JsonContentTypeExamples | notify.js:106-109 | the content-type check accepts `application/json` with or without a `;` parameter, and rejects `application/jsonp`, a space before `;`, other cases, and other types |
| Request.MissingContentTypeThrows | notify.js:106-108 | a response without a content-type never settles, whatever its status |
| UptimeRobot.CheckEnvelope | notify.js:19-25 | a status above 399 fails with `"<code> <message>"`; otherwise a `stat` that is not `"ok"` fails with the error message (empty when undefined); success exactly when both checks pass, with the payload list |
| UptimeRobot.FetchList | notify.js:10-25 | a response that never settles never settles the call; a rejected request throws what it rejected with; the list is returned exactly when the response resolved with status at most 399 and `stat` `"ok"`, and it is the envelope's list; any other resolved response throws the envelope check's error |
| UptimeRobot.GetAllMonitors | notify.js:10-26 | the monitor list is returned exactly when the response resolved with status at most 399 and `stat` `"ok"`, and it is the envelope's list |
| UptimeRobot.GetSlackWebhook | notify.js:29-44 | succeeds exactly when the contact list is fetched, and then gives the value of the first Slack contact; otherwise it fails as the fetch does |
| UptimeRobot.FirstHookFrom | notify.js:43 | the index found is a Slack contact and no earlier one from the start index is |
| UptimeRobot.FindWebhook | notify.js:43 | no URL exactly when no contact contains the marker; otherwise the value of the first contact that does |
| UptimeRobot.WebhookUrlNotEmpty | notify.js:236 | a found URL is at least as long as the marker, so `!url` only rejects a missing one |
| UptimeRobot.HttpErrorIsRejectedResponse | notify.js:19-21 | a status above 399 never reaches the status check: the call throws the rejected response (or never settles) |
| UptimeRobot.ResolvedStatusPassesHttpCheck | notify.js:37-42 | a resolved response has status at most 399, so only the `stat` check can fail, with the envelope's message |
| UptimeRobot.FailedEnvelopeThrowsItsMessage | notify.js:22-24 | a `stat: "fail"` envelope throws an error carrying `error.message` |
| Slack.FormatSlackBlocks | notify.js:46-72 | three blocks when `blocks` is non-empty, else two; the first is a divider exactly when `blocks` is non-empty; the last two are the failure's sections |
| Slack.Accumulated | notify.js:176-188 | the `blocks` array is empty exactly when nothing failed; its layout is stated by Slack.AccumulatedLayout |
| Slack.FailureLines | notify.js:175 | one `Failed host:port` line per failure, position by position |
| Slack.AccumulatedLayout | notify.js:176-188 | after k failures there are 3k-1 blocks (none for none); failure i sits at 3i and 3i+1, and a divider at 3i-1 |
| Slack.DividersBetweenEntries | notify.js:48-54 | exactly k-1 dividers for k failures, and the first block is never a divider |
| Slack.BuildMessage | notify.js:213-233 | no message exactly when there are no blocks; otherwise the summary, then the blocks unchanged, then the log link exactly when it is set, and the prefixed text joined by newlines |
| Slack.MessageIffFailures | notify.js:213-214 | a message exists exactly when some failure was recorded |
| Slack.MessageBlocks | notify.js:216-230 | the message blocks, position by position, for the recorded failures; the last block is the log link or the last error |
| Slack.MessageText | notify.js:231 | after its prefix, the text splits back into the failure lines in recorded order |
| Slack.NoNewlineInFailedLine | notify.js:175 | a failure line holds no newline when its host holds none |
| Probes.Filter | notify.js:156 | the result is no longer than the input, and an element is kept exactly when it is in the input and satisfies the predicate |
| Probes.FilterCounts | notify.js:154-158 | each element is kept as many times as it occurs when it satisfies the predicate, and never otherwise |
| Probes.FilterSingle | notify.js:154-158 | on one element, the filter keeps it exactly when the predicate holds |
| Probes.FilterAppend | notify.js:154-158 | filtering a concatenation is the concatenation of the filtered parts, so the filter keeps the input's order |
| Probes.FilterTwice | notify.js:154-158 | two filters in a row equal one filter on both conditions, order included |
| Probes.SelectMonitors | notify.js:154-158 | a monitor is kept exactly when it is in the list, its URL starts with `https://` and its status is 2 |
| Probes.SelectionIsOneFilter | notify.js:154-158 | the two filters in a row are one filter on both conditions, so by Probes.FilterAppend and Probes.FilterSingle the selection is the HTTPS up monitors in list order |
| Probes.SelectionCounts | notify.js:154-158 | an HTTPS monitor that is up is selected as many times as it is listed; any other monitor never is |
| Probes.SelectsOnlyHttpsUp | notify.js:156-158 | of an HTTPS up monitor, an HTTP one and an HTTPS one that is not up, only the first is kept |
| Probes.TargetOf | notify.js:160-165 | a target exactly when the URL parses, with the monitor's name and URL and the URL's host; port 443 when the URL has no port, otherwise the port the URL gives |
| Probes.Targets | notify.js:159-165 | no more targets than monitors; which targets, in which order, is fixed for every list by Probes.TargetsSingle and Probes.TargetsAppend |
| Probes.TargetsSingle | notify.js:159-168 | a monitor gives exactly one target when its URL parses, the one `TargetOf` computes, and none when it does not |
| Probes.TargetsAppend | notify.js:159-168 | the targets of a concatenation are those of each part, in order, so every monitor whose URL parses is probed, in list order, also when another URL does not parse |
| Probes.TargetsComeFromMonitors | notify.js:159-165 | every probe target is the target of a monitor of the list |
| Probes.TargetsOfLocated | notify.js:159-165 | when every URL parses, there is one target per monitor, in order |
| Probes.FailureOf | notify.js:168-208 | a completion records nothing exactly when the probe connected; the `error` event and the `catch` record the same failure |
| Probes.Failures | notify.js:173-208 | at most one failure per completion; which failures are recorded is stated by the lemmas below |
| Probes.FailuresAppend | notify.js:173-208 | the failures of two runs of completions are those of each, in order |
| Probes.RemoveCompletion | notify.js:173-208 | taking one completion out removes just its failure from the recorded ones |
| Probes.FailuresIgnoreCompletionOrder | notify.js:153-211 | completions in any order record the same failures with the same multiplicities |
| Probes.FailuresComeFromCompletions | notify.js:173-208 | every recorded failure is that of a completion that did not connect, with its target and error |
| Probes.FailingCompletionRecorded | notify.js:173-208 | every completion that did not connect has its failure recorded |
| Probes.NoFailuresIffAllConnected | notify.js:167-208 | no failure is recorded exactly when every completion is a successful connect |
| Probes.FailuresOfProbedTargets | notify.js:153-211 | for the callbacks of the started probes, every recorded failure is that of a probed target, and every probed target either connected or has its failure recorded |
| Probes.FailureLog.constructor | notify.js:136-137 | both arrays start empty, with nothing recorded |
| Probes.FailureLog.Record | notify.js:175-188 | appends the failure line, then the blocks `formatSlackBlocks` gives for the current array, and keeps the arrays equal to those of the recorded failures |
| Probes.CollectFailures | notify.js:153-211 | after all callbacks, the arrays hold the blocks and lines of the failures, in completion order |
| Probes.CollectedShape | notify.js:175-188 | after k failures: 3k-1 blocks with k-1 dividers, the first not a divider, and k lines |
| Probes.SuccessRecordsNothing | notify.js:168-171 | a probe that connects leaves both arrays unchanged |
| Probes.OnlyHttpsUpMonitorIsProbed | notify.js:154-165 | for an HTTPS up monitor, an HTTP one and a paused one, only the first is probed, on port 443 |
| Handler.WebhookRequest | notify.js:244-247 | the request a post carries: a POST with the message's JSON text as payload, and exactly the JSON content type and the payload's length as headers |
| Handler.ProbeCalls | notify.js:159-168 | one TLS probe call per target, in order |
| Handler.Handle | notify.js:132-261 | no call is made exactly when the API key is missing or empty, and then the key error is returned; otherwise the first call fetches the monitors |
| Handler.ProbeStage | notify.js:153-168 | the stage starts with one probe call per target of the selected monitors, in order |
| Handler.JoinStage | notify.js:153-211 | the run starts with the probe calls, and whatever follows them is the notification stage's, reached only when every selected URL parsed |
| Handler.NotifyStage | notify.js:235-250 | the stage either only looks up the contacts, or looks them up and then posts once; nothing else is called |
| Handler.PostsFoundUrl | notify.js:235-247 | the stage posts exactly when the lookup found a non-empty URL and there is a message, and then posts that message to that URL with the request `WebhookRequest` prepares for its JSON text |
| Handler.OnlyHttpsUpMonitorsProbed | notify.js:153-168 | every probe is the target of a fetched monitor with an HTTPS URL and status 2 |
| Handler.CallsAfterFetch | notify.js:152-153 | once the monitors are fetched, the run is the monitor request followed by the join stage for the selected monitors |
| Handler.AfterJoinProbe | notify.js:152-211 | after the monitor request, a probe call is the fan-out's probe at that position, as the notification stage makes none |
| Handler.PostIsNotifyPost | notify.js:152-250 | a post happens only after every selected URL parsed; it is the last call, and the post of the notification stage |
| Handler.AfterJoinPost | notify.js:152-250 | after the monitor request and the probes, a post can only be the second call of the notification stage, and the last call |
| Handler.PostOnlyWithFailures | notify.js:241-250 | a post happens only when the webhook was found and some probe failed (some completion did not connect, by Probes.NoFailuresIffAllConnected); it is the last call, and it carries the message built from the recorded failures |
| Handler.PostGoesToWebhook | notify.js:235-247 | a post goes to the URL the contact lookup found, with the POST request that carries the message's JSON text |
| Handler.NotifyPostsBuiltMessage | notify.js:213-250 | a stage that posts found the webhook, had failures, and posts the built message |
| Handler.NotifyPostsToWebhook | notify.js:235-247 | a stage that posts found the webhook URL, posts to it, and posts the message's JSON text as a POST |
| Handler.PostedFailuresWereProbed | notify.js:153-233 | when the completions are those of the started probes, every failure the message reports is that of a target the run probed |
| Handler.ProbesInJoin | notify.js:153-168 | every target gets its probe call in the run |
| Handler.AllConnectedNoPost | notify.js:167-171 | when every probe callback is a successful connect, nothing is posted |
| Handler.NoFailuresNoPost | notify.js:241-256 | with a webhook and no failures, nothing is posted and the OK reply is returned |
| Handler.JoinWithoutFailures | notify.js:241-256 | with a webhook and no failures, the contact lookup is the last call and the reply is OK |
| Handler.NoWebhookContact | notify.js:235-239 | without a webhook contact: the "No Slack webhook contact" error, after the monitor request, all probes and the lookup |
| Handler.SendOutcome | notify.js:241-260 | with failures and a webhook, the post is the last call; OK when it resolves, and "Slack send failed!" when it rejects |
| Handler.JoinWithFailures | notify.js:241-260 | after the probes, the post is the second call of the stage, and its settlement decides the result |
| Handler.OkExactly | notify.js:252-256 | the OK reply is returned exactly when the webhook was found and either nothing failed or the post resolved |
| Handler.InvalidKeyStopsBeforeProbes | notify.js:152 | a `stat: "fail"` monitor envelope rejects the invocation with its message after the single monitor request |
| Handler.UnparsableUrlRejects | notify.js:153-168 | a selected monitor whose URL does not parse rejects the invocation with "Invalid URL" once every probe has been started: the calls are the monitor request and the probes of `Targets` (one per selected monitor whose URL parses, by Probes.TargetsSingle and Probes.TargetsAppend), so the contacts are never fetched and nothing is posted |
| Handler.MonitorFetchFails | notify.js:10-26 | a monitor fetch that throws rejects the invocation with the thrown fault, one that never settles crashes it, and the monitor request is the only call |
| Handler.ContactFetchFails | notify.js:29-44 | a contact fetch that throws rejects the invocation with the thrown fault, one that never settles crashes it, and the calls are the monitor request, all probes and the lookup |
| Handler.NoApiKeyExactly | notify.js:146-150 | the key error is returned exactly when the API key is missing or empty |
| Handler.RejectsExactly | notify.js:152-235 | the invocation rejects exactly when the key is set and the monitor fetch throws, or it succeeds and either a selected URL does not parse or the contact fetch throws |
| Handler.NoWebhookExactly | notify.js:235-239 | "No Slack webhook contact" is returned exactly when the run reached the lookup and no contact holds a Slack webhook |
| Handler.SendFailedExactly | notify.js:241-260 | "Slack send failed!" is returned exactly when the webhook was found, some probe failed, and the post was rejected |
| Handler.CrashCases | notify.js:105-118 | the process crashes exactly when a fetch never settles, or a post that is made never settles |

## Left out

- Sockets, HTTP/HTTPS transport and the TLS handshake: each request's answer and each probe's outcome are inputs. The choice of `http` or `https` and `servername` are not modelled.
- The `timeout: 10000` option is only carried as a field. In Node it only emits a `timeout` event, which the file does not handle: a stalled server leaves the `request` promise pending. No `Arrival` represents that case, so the model never shows a run stuck on a stalled API or webhook.
- `Promise.all` interleaving: the probe callbacks are an arbitrary sequence of completions. A probe that never completes, which would hang the join, is not modelled.
- Text.ConcatAppend: the body chunks are modelled as already-decoded text. Node delivers `Buffer` chunks, and `data += chunk` decodes each one on its own, so a multi-byte UTF-8 character split across two chunks becomes U+FFFD replacement characters. The model does not capture that loss.
- Handler.Handle takes the probe completions as an input and does not check that they belong to the probes it started. That link is `Probes.CompletionsFor` (through `Handler.ProbesComplete`), which Handler.PostedFailuresWereProbed requires.
- `JSON.stringify`, `JSON.parse`, `new URL` and `URLSearchParams`: their results are inputs. These are the serialised message (`World.stringify`), the parsed envelope (or a parse failure), the URL's host and port (or a parse failure), and the form-encoded API key.
- The form-encoded POST bodies of the two API calls and their `content-type` header: only the call and its answer are modelled.
- Request.Prepare: header names are merged as exact keys. Node's case-insensitive handling of, e.g., `content-type` against `Content-Type` is left out.
- Request.Prepare: `Content-Length` is the payload's length in characters. JavaScript counts UTF-16 code units, which can differ from the byte length for non-ASCII text.
- `String(err)`: the error of a failed probe is already its string.
- A monitor list or contact list missing from an `ok` envelope, or a contact without `value`, would throw a `TypeError`. The model assumes the envelope holds the list.
- Probes.Targets: its own contract states only the length bound. Its content, for every list, is stated by Probes.TargetsSingle and Probes.TargetsAppend (and, when every URL parses, position by position by Probes.TargetsOfLocated).
- The log link: its construction from `AWS_REGION` and the log group and stream names is an input, absent or present.
- The timestamp: `new Date().toISOString()` is an input.
- Logging (`logger.*`, `LOG_VERBOSE`), `context.callbackWaitsForEmptyEventLoop`, and the `require.main` entry point have no effect on the result and are not modelled.
- The Slack webhook's response body is not inspected by the handler, and it is not modelled beyond its settlement.
