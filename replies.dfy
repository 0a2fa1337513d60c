/** What the handler says back: the friendly summary text and the HTTP-style response envelope. */
module Replies {
  import opened Wrappers
  import opened JsonValues
  import opened Routing
  import opened Envelope

  const NegativeReply := "Thanks for your message. It sounds negative, so it was marked as " + Phrase(HIGH) + " for faster attention."
  const PositiveReply := "Thanks for your message! It sounds positive, so it was routed as " + Phrase(LOW) + "."
  const NeutralReply := "Thanks for your message. It seems neutral, so it was routed with " + Phrase(NORMAL) + "."

  const InvalidMessageError := "Missing or invalid 'message' field"
  const InternalError := "Internal server error"

  /** The tier a sentiment label would suggest: the tier the friendly reply talks about. */
  function LabelTier(sentiment: string): Tier {
    if sentiment == "NEGATIVE" then HIGH
    else if sentiment == "POSITIVE" then LOW
    else NORMAL
  }

  /** How the friendly reply names each tier. */
  function Phrase(t: Tier): string {
    match t
    case HIGH => "high priority"
    case NORMAL => "normal priority"
    case LOW => "low priority"
  }

  /** `phrase` occurs in `text` starting at index `k`. */
  predicate OccursAt(text: string, phrase: string, k: int) {
    0 <= k <= |text| - |phrase| && text[k..k + |phrase|] == phrase
  }

  /** `phrase` occurs somewhere in `text`. */
  predicate Mentions(text: string, phrase: string) {
    exists k | 0 <= k <= |text| - |phrase| :: OccursAt(text, phrase, k)
  }

  lemma MentionsMiddle(before: string, phrase: string, after: string)
    ensures Mentions(before + phrase + after, phrase)
  {
    assert OccursAt(before + phrase + after, phrase, |before|);
  }

  /**
   * The friendly summary. It is chosen by the sentiment label alone: the
   * `priority` argument is accepted and ignored. The text names the tier the
   * label suggests (NEGATIVE: high, POSITIVE: low, anything else: normal).
   */
  function FriendlyMessage(sentiment: string, priority: string): (r: string)
    ensures Mentions(r, Phrase(LabelTier(sentiment)))
    ensures r in {NegativeReply, PositiveReply, NeutralReply}
  {
    if sentiment == "NEGATIVE" then
      MentionsMiddle("Thanks for your message. It sounds negative, so it was marked as ", Phrase(HIGH), " for faster attention.");
      NegativeReply
    else if sentiment == "POSITIVE" then
      MentionsMiddle("Thanks for your message! It sounds positive, so it was routed as ", Phrase(LOW), ".");
      PositiveReply
    else
      MentionsMiddle("Thanks for your message. It seems neutral, so it was routed with ", Phrase(NORMAL), ".");
      NeutralReply
  }

  /** The reply does not depend on the priority it is given. */
  lemma FriendlyMessageIgnoresPriority(sentiment: string, p1: string, p2: string)
    ensures FriendlyMessage(sentiment, p1) == FriendlyMessage(sentiment, p2)
  {
  }

  /** The response envelope: a status code, the JSON content-type header and a body. */
  datatype Response = Response(statusCode: int, headers: map<string, string>, body: Json)

  const JsonHeaders: map<string, string> := map["Content-Type" := "application/json"]

  /** Wraps a body into the envelope every response of the handler has. */
  function Respond(statusCode: int, body: Json): Response
  {
    Response(statusCode, JsonHeaders, body)
  }

  function ErrorBody(error: string): Json {
    JObj(map["error" := JStr(error)])
  }

  /** The 200 body: a summary echoing the payload's sentiment and priority, and the payload itself. */
  function SuccessBody(p: Payload, friendly: string): Json {
    JObj(map[
      "summary" := JObj(map[
        "sentiment" := JStr(p.sentiment),
        "priority" := JStr(p.priority.Name()),
        "message" := JStr(friendly)]),
      "data" := PayloadJson(p)])
  }

  /** The error text of an error body, if the body is one. */
  function ErrorOf(body: Json): Option<string> {
    if body.JObj? && "error" in body.fields && body.fields["error"].JStr? then Some(body.fields["error"].s)
    else None
  }

  /** The sentiment, priority and reply text of a 200 body's summary, as a client reads them. */
  function SummaryOf(body: Json): Option<(string, Option<Tier>, string)> {
    if body.JObj? && "summary" in body.fields && body.fields["summary"].JObj? then
      var s := body.fields["summary"].fields;
      match (StrField(s, "sentiment"), StrField(s, "priority"), StrField(s, "message"))
      case (Some(sentiment), Some(priority), Some(msg)) => Some((sentiment, TierNamed(priority), msg))
      case _ => None
    else None
  }

  /** The payload in a 200 body's `data`, as a client reads it. */
  function DataOf(body: Json): Option<Payload> {
    if body.JObj? && "data" in body.fields then PayloadFromJson(body.fields["data"]) else None
  }

  /** A client reading a success body gets back the payload and a summary that agrees with it. */
  lemma SuccessBodyEchoesPayload(p: Payload, friendly: string)
    ensures SummaryOf(SuccessBody(p, friendly)) == Some((p.sentiment, Some(p.priority), friendly))
    ensures DataOf(SuccessBody(p, friendly)) == Some(p)
    ensures ErrorOf(SuccessBody(p, friendly)) == None
  {
    PayloadRoundTrip(p);
  }
}
