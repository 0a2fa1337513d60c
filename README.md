# Smart inbox message pipeline, modelled in Dafny

This project models the message pipeline of the smart-inbox Lambda handler `lambda/handler.py`. An HTTP-style event carries a text `message`. The handler does these steps in order:
1. validates the message;
2. asks a sentiment provider for a label and a score map;
3. routes the message to one of three priority queues (HIGH, NORMAL, LOW) by comparing the Negative and Positive scores with two thresholds;
4. builds a payload `{id, message, sentiment, scores, priority, timestamp}`;
5. sends the payload to the routed queue;
6. writes an audit copy to `audit/<id>.json` when an audit bucket is configured;
7. answers with a JSON envelope.

A failure after validation becomes a generic 500.

Modules:
- `Wrappers`: `Option`.
- `JsonValues`: parsed JSON values. Bodies are modelled as parsed values, not text.
- `Routing`: the configuration record, the tiers and the router.
- `Envelope`: the payload, its JSON form, its decoder and the audit key.
- `Replies`: the friendly summary text and the response envelope.
- `Pipeline`: the handler as a function `Handle(cfg, store, invocation) -> (store', response)`. It also has `Run` for repeated invocations and the invariants that hold across them.
- `Inbox`: class `SmartInbox`, whose method `LambdaHandler` runs the same steps one after another. It updates three fields: the sentiment requests made, the messages sent and the audit objects. Its postcondition ties the new state and the response to `Handle`.

Inputs the model takes as parameters:
- **Sentiment provider:** a function field of the invocation, `(text, languageCode) -> Option<Analysis>`. `None` stands for a call that raises or a reply without `SentimentScore`/`Sentiment`.
- **Id and timestamp:** the fresh UUID string and the UTC timestamp are supplied with the invocation.
- **Queue send and audit write:** the flags `sendOk` and `putOk` say whether each call goes through.
- **Environment:** a `Config` record. `Routing.DefaultConfig` gives the documented defaults: both thresholds 0.7 and language `pt`.

Edge cases modelled as the code has them:
- An event with no `body` key is read as `{}` and so gets a 400. A `null` body makes `json.loads` raise: it is `Body(None)` in the model and gets a 500.
- A body that does not parse, or is JSON but not an object, raises and gets a 500.
- An audit bucket that is set but empty disables auditing (`if AUDIT_BUCKET:`).
- An audit write that fails after a successful send gives a 500, yet the message stays in its queue. `Pipeline.AuditFailureAfterSend` states this.
- The summary text is chosen from the provider's label, not from the routed tier. It can therefore name a different tier than the one the message was routed to: a NEGATIVE label with Negative score 0.6 is routed NORMAL, and the text still says "high priority" (`Pipeline.SummaryTextCanDisagreeWithPriority`). The model keeps this behaviour.
- The payload has no `source` field. The code builds only the six fields listed above, and the model follows the code.

## Model

| member | source | states |
|---|---|---|
| `Routing.Route` | lambda/handler.py:104-111 | The tier is HIGH exactly when Negative (a missing key counts as 0) is at or above its threshold, whatever Positive is. It is LOW exactly when Negative is below and Positive at or above its threshold, and NORMAL exactly when both are below. The queue returned is always the queue of that tier. |
| `Routing.RouteReadsOnlyNegativeAndPositive` | lambda/handler.py:104-111 | Two score maps that agree on Negative and Positive (missing counts as 0) route identically; the other scores never matter. |
| `Routing.EmptyScoresRouteNormal` | lambda/handler.py:105-111 | With positive thresholds, an empty score map routes to (NORMAL, normal queue). |
| `Routing.RaisingNegativeKeepsHigh` | lambda/handler.py:105-106 | Raising the Negative score of a HIGH message keeps it (HIGH, high queue). |
| `Routing.FirstMatchNotLargestScore` | lambda/handler.py:104-111 | Routing is first-match, not largest-score. Under the default thresholds, scores Negative 0.7 and Positive 0.9 route HIGH although Positive is larger. |
| `Envelope.PayloadRoundTrip` | lambda/handler.py:49-56 | The JSON object built from a payload decodes back to the same payload, with id, message, sentiment, scores, priority and timestamp all intact. |
| `Envelope.ScoresRoundTrip` | lambda/handler.py:53 | The score map inside the payload decodes back to the same map. |
| `Envelope.AuditKey` | lambda/handler.py:68 | The audit key is `audit/`, then exactly the id, then `.json`; it is 11 characters longer than the id. |
| `Envelope.AuditKeyInjective` | lambda/handler.py:68 | Different ids give different audit keys. |
| `Replies.FriendlyMessage` | lambda/handler.py:86-102 | The reply is one of the three fixed texts. It names the tier the label suggests: "high priority" for NEGATIVE, "low priority" for POSITIVE, "normal priority" for any other label. |
| `Replies.FriendlyMessageIgnoresPriority` | lambda/handler.py:86-102 | The `priority` argument has no effect on the reply. |
| `Replies.SuccessBodyEchoesPayload` | lambda/handler.py:73-80 | A client reading a 200 body finds summary sentiment and priority equal to the payload's, the reply text, and `data` decoding to the payload. The body has no `error` field. |
| `Pipeline.Validate` | lambda/handler.py:30-35 | A message is accepted exactly when the body (missing means `{}`) is an object whose `message` is a non-empty string, and the accepted text is that string. The body is broken (the code raises) exactly when it does not parse or is not an object. |
| `Pipeline.Handle` | lambda/handler.py:26-85 | One invocation. <br>• A rejected body gives the 400 error and leaves every effect unchanged, including provider calls; a broken body gives the 500 error, also with no effect. <br>• An accepted text goes to the provider once, with the configured language. <br>• The status is 200 exactly when the provider answers, the send succeeds and, if auditing is on, the audit write succeeds; any other failure gives the generic 500. <br>• At most one message is appended to the queue log, and when one is, it is the routed payload on the queue of its own tier. <br>• The audit store changes at most by the copy of that message under `audit/<id>.json`, and only with auditing on. <br>• On 200, exactly one message was sent and the audit copy was written exactly when auditing is on. The body is the summary plus the payload. <br>• Every response carries the JSON content-type header. |
| `Pipeline.Run` | lambda/handler.py:26-85 | Over a sequence of invocations, the queue log only grows, by at most one message per invocation. |
| `Pipeline.HandleKeepsAuditMirror` | lambda/handler.py:59-71 | If every audit object is a copy of a sent message stored under its own id's key, one invocation keeps it so, whatever fails. |
| `Pipeline.HandleKeepsIdsDistinct` | lambda/handler.py:49-62 | Sending the payload of an invocation whose id is unused keeps the sent ids pairwise distinct. |
| `Pipeline.HandleUsesOnlyItsId` | lambda/handler.py:49-62 | An invocation sends no payload with an id other than its own. |
| `Pipeline.HandleKeepsAuditCover` | lambda/handler.py:64-71 | Suppose auditing is on, the audit write succeeds and the id is unused. If every sent message has its audit copy before the invocation, it still does after. |
| `Pipeline.RunKeepsAuditMirror` | lambda/handler.py:26-85 | Across any sequence of invocations, the audit store holds only verbatim copies of sent messages, each under its own id's key. |
| `Pipeline.RunWithFreshIds` | lambda/handler.py:49-71 | With a fresh id per invocation, the sent payloads have distinct ids. If auditing is also on and no audit write fails, every sent message has its verbatim audit copy. |
| `Pipeline.EveryResponseIsJsonEnvelope` | lambda/handler.py:114-121 | Every response has the single header Content-Type: application/json and status 200, 400 or 500. A 400 carries "Missing or invalid 'message' field", a 500 carries "Internal server error", and a 200 no error. |
| `Pipeline.AuditFailureAfterSend` | lambda/handler.py:59-85 | When the audit write fails after a successful send, the response is the generic 500, the message is still in the queue log and the audit store is unchanged. |
| `Pipeline.SuccessEchoesSentPayload` | lambda/handler.py:72-80 | On success, the response's `data` decodes to exactly the payload that was sent, and the summary's sentiment and priority are that payload's. |
| `Pipeline.SummaryTextCanDisagreeWithPriority` | lambda/handler.py:72-111 | Under the default thresholds, a NEGATIVE message with Negative score 0.6 is sent NORMAL to the normal queue with status 200. The response's summary gives priority NORMAL while its text says "high priority". |
| `Inbox.SmartInbox.LambdaHandler` | lambda/handler.py:26-85 | The step-by-step handler leaves the provider log, queue log and audit store, and returns the response, exactly as `Pipeline.Handle` prescribes. It keeps audit objects verbatim copies of sent messages. |
| `Inbox.SmartInbox.constructor` | lambda/handler.py:7-23 | A fresh handler holds its configuration and has made no provider call, sent nothing and audited nothing. |

## Left out

- The AWS clients (Comprehend, SQS, S3) are foreign calls. The provider becomes a function input, and the send and the audit write become updates of the modelled state with success flags.
- JSON text parsing and serialisation are library glue. The event body is given as its parse result, and payloads and responses are JSON values rather than text. `json.dumps` of the response body is not modelled.
- The logging `print` calls carry no behaviour.
- `uuid.uuid4()` and `datetime.utcnow()` are nondeterministic. Their results are inputs of each invocation.
- Environment loading (reading and converting the variables, and the failure when a required queue URL is absent) runs at process start. It is the immutable `Config` record.
- Thresholds and scores are exact reals, not IEEE floats. Only `>=` comparisons are made on them. Scores that are not numbers, which would make the comparison raise, are outside the type.
- A send that raises is modelled as not delivering the message.
- The other routes of the system (translation, OCR, transcription, speech synthesis, upload URLs, path dispatch) are not in `lambda/handler.py` and are not part of this model.
