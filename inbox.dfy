/**
 * The handler as the program runs it: an object holding the immutable
 * configuration and the effects it has had on the outside world, whose
 * handler method performs the pipeline step by step.
 */
module Inbox {
  import opened Wrappers
  import opened JsonValues
  import opened Routing
  import opened Envelope
  import opened Replies
  import opened Pipeline

  class SmartInbox {
    const cfg: Config
    /** Requests made to the sentiment provider, in order. */
    var detections: seq<Detection>
    /** Messages sent to the three queues, in order. */
    var sent: seq<Message>
    /** Objects written to the audit bucket, by key. */
    var audit: map<string, Payload>

    function State(): Store
      reads this
    {
      Store(detections, sent, audit)
    }

    /** The audit bucket only ever holds copies of messages that were sent. */
    ghost predicate Valid()
      reads this
    {
      AuditMirrorsQueue(State())
    }

    constructor (cfg: Config)
      ensures Valid()
      ensures this.cfg == cfg && State() == Store([], [], map[])
    {
      this.cfg := cfg;
      detections, sent, audit := [], [], map[];
    }

    /** One invocation of the handler. */
    method LambdaHandler(inv: Invocation) returns (resp: Response)
      requires Valid()
      modifies this
      ensures Valid()
      ensures (State(), resp) == Handle(cfg, old(State()), inv)
    {
      ghost var before := State();
      HandleKeepsAuditMirror(cfg, before, inv);
      var validation := Validate(inv.event);
      if validation.Broken? {
        return Internal;
      }
      if validation.Rejected? {
        return Invalid;
      }
      var text := validation.text;
      detections := detections + [Detection(text, cfg.languageCode)];
      var analysis := inv.detect(text, cfg.languageCode);
      if analysis.None? {
        return Internal;
      }
      var scores := analysis.value.scores;
      var sentiment := analysis.value.sentiment;
      var (priority, queueUrl) := Route(cfg, scores);
      var payload := Assemble(inv.id, text, sentiment, scores, priority, inv.timestamp);
      if !inv.sendOk {
        return Internal;
      }
      sent := sent + [Message(queueUrl, payload)];
      if AuditEnabled(cfg) {
        if !inv.putOk {
          return Internal;
        }
        audit := audit[AuditKey(payload.id) := payload];
      }
      var friendly := FriendlyMessage(sentiment, priority.Name());
      resp := Respond(200, SuccessBody(payload, friendly));
    }
  }
}
