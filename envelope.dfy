/**
 * The payload built for each accepted message, and its JSON form: the same
 * object is the body of the queue message, the audit object and the `data`
 * part of the response.
 */
module Envelope {
  import opened Wrappers
  import opened JsonValues
  import opened Routing

  datatype Payload = Payload(
    id: string,
    message: string,
    sentiment: string,
    scores: map<string, real>,
    priority: Tier,
    timestamp: string)

  /** Assembles the payload of an accepted message; the id and timestamp are supplied by the caller. */
  function Assemble(id: string, message: string, sentiment: string, scores: map<string, real>,
                    priority: Tier, timestamp: string): Payload
  {
    Payload(id, message, sentiment, scores, priority, timestamp)
  }

  function ScoresJson(scores: map<string, real>): Json {
    JObj(map k | k in scores :: JNum(scores[k]))
  }

  function ScoresFromJson(j: Json): Option<map<string, real>> {
    if j.JObj? && forall k | k in j.fields :: j.fields[k].JNum? then
      Some(map k | k in j.fields :: j.fields[k].n)
    else None
  }

  /** The payload as the JSON object with keys id, message, sentiment, scores, priority and timestamp. */
  function PayloadJson(p: Payload): Json {
    JObj(map[
      "id" := JStr(p.id),
      "message" := JStr(p.message),
      "sentiment" := JStr(p.sentiment),
      "scores" := ScoresJson(p.scores),
      "priority" := JStr(p.priority.Name()),
      "timestamp" := JStr(p.timestamp)])
  }

  function StrField(fields: map<string, Json>, key: string): Option<string> {
    if key in fields && fields[key].JStr? then Some(fields[key].s) else None
  }

  /** Reads a payload back from its JSON object, as a consumer of the queue would. */
  function PayloadFromJson(j: Json): Option<Payload> {
    if !j.JObj? then None
    else
      var f := j.fields;
      match (StrField(f, "id"), StrField(f, "message"), StrField(f, "sentiment"),
             if "scores" in f then ScoresFromJson(f["scores"]) else None,
             if "priority" in f && f["priority"].JStr? then TierNamed(f["priority"].s) else None,
             StrField(f, "timestamp"))
      case (Some(id), Some(msg), Some(sentiment), Some(scores), Some(priority), Some(ts)) =>
        Some(Payload(id, msg, sentiment, scores, priority, ts))
      case _ => None
  }

  /** Score maps survive their JSON encoding. */
  lemma ScoresRoundTrip(scores: map<string, real>)
    ensures ScoresFromJson(ScoresJson(scores)) == Some(scores)
  {
    var j := ScoresJson(scores);
    assert forall k | k in j.fields :: j.fields[k] == JNum(scores[k]);
    var back := map k | k in j.fields :: j.fields[k].n;
    assert back.Keys == scores.Keys;
    assert back == scores;
  }

  /** Every payload is recovered intact from the JSON that is enqueued, audited and returned. */
  lemma PayloadRoundTrip(p: Payload)
    ensures PayloadFromJson(PayloadJson(p)) == Some(p)
  {
    ScoresRoundTrip(p.scores);
    assert TierNamed(p.priority.Name()) == Some(p.priority);
  }

  /** The object key of a payload's audit copy: `audit/<id>.json`. */
  function AuditKey(id: string): (k: string)
    ensures |k| == |id| + 11
    ensures k[..6] == "audit/" && k[6..|k| - 5] == id && k[|k| - 5..] == ".json"
  {
    "audit/" + id + ".json"
  }

  /** Different payload ids never share an audit key, so one audit copy cannot overwrite another's. */
  lemma AuditKeyInjective(a: string, b: string)
    ensures AuditKey(a) == AuditKey(b) ==> a == b
  {
    if AuditKey(a) == AuditKey(b) {
      assert |a| == |b|;
    }
  }
}
