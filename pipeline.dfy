/**
 * The message pipeline of the handler, as a function from the state of the
 * outside world (sentiment requests made, queue messages sent, audit objects
 * stored) and one invocation to the new state and the response:
 * validate, detect sentiment, route, assemble, enqueue, audit, respond.
 */
module Pipeline {
  import opened Wrappers
  import opened JsonValues
  import opened Routing
  import opened Envelope
  import opened Replies

  /**
   * The raw body of the event: no `body` key at all (read as "{}"), or a body
   * whose parse either gives a JSON value or raises. A `null` body, which
   * `json.loads` rejects, is `Body(None)` and so gets the generic 500.
   */
  datatype EventBody = NoBody | Body(parsed: Option<Json>)

  /** What the sentiment provider answers: a label and a score map. */
  datatype Analysis = Analysis(sentiment: string, scores: map<string, real>)

  /** One request made to the sentiment provider. */
  datatype Detection = Detection(text: string, languageCode: string)

  /** One message sent to a queue. */
  datatype Message = Message(queueUrl: string, payload: Payload)

  /** The effects the handler has had so far; the audit map is keyed by object key in the audit bucket. */
  datatype Store = Store(detections: seq<Detection>, sent: seq<Message>, audit: map<string, Payload>)

  /**
   * Everything one invocation depends on besides the configuration: the event
   * body, the sentiment provider, the fresh id and the current time, and whether
   * the queue send and the audit write go through.
   */
  datatype Invocation = Invocation(
    event: EventBody,
    detect: (string, string) -> Option<Analysis>,
    id: string,
    timestamp: string,
    sendOk: bool,
    putOk: bool)

  /** Outcome of reading `message` from the body. */
  datatype Validation = Accepted(text: string) | Rejected | Broken

  /**
   * The body is parsed (a missing body is the empty object) and its `message`
   * read. A body that does not parse, or is JSON but not an object, raises and
   * is Broken; an object whose `message` is missing, empty or not a string is
   * Rejected; otherwise the message text is Accepted.
   */
  function Validate(event: EventBody): (v: Validation)
    ensures v.Accepted? <==>
      ((event.NoBody? || (event.parsed.Some? && event.parsed.value.JObj?)) &&
       Field(BodyFields(event), "message").Some? && Field(BodyFields(event), "message").value.JStr? &&
       Field(BodyFields(event), "message").value.s != "")
    ensures v.Accepted? ==> v.text != "" && Field(BodyFields(event), "message") == Some(JStr(v.text))
    ensures v.Broken? <==> event.Body? && (event.parsed.None? || !event.parsed.value.JObj?)
  {
    var parsed := match event case NoBody => Some(JObj(map[])) case Body(p) => p;
    if parsed.None? || !parsed.value.JObj? then Broken
    else
      match Field(parsed.value.fields, "message")
      case Some(JStr(s)) => if s == "" then Rejected else Accepted(s)
      case _ => Rejected
  }

  /** The fields of an object body (empty when the body is absent or not an object). */
  function BodyFields(event: EventBody): map<string, Json> {
    match event
    case NoBody => map[]
    case Body(p) => if p.Some? && p.value.JObj? then p.value.fields else map[]
  }

  const Internal := Respond(500, ErrorBody(InternalError))
  const Invalid := Respond(400, ErrorBody(InvalidMessageError))

  /** The invocation goes all the way to a 200. */
  predicate Succeeds(cfg: Config, inv: Invocation) {
    Validate(inv.event).Accepted? &&
    inv.detect(Validate(inv.event).text, cfg.languageCode).Some? &&
    inv.sendOk && (AuditEnabled(cfg) ==> inv.putOk)
  }

  /**
   * `m` is the message the handler must send for `inv`: its payload carries the
   * invocation's id and time, the accepted text, the provider's label and
   * scores and the routed tier, and it goes to the queue of that tier.
   */
  predicate RoutedMessage(cfg: Config, inv: Invocation, m: Message) {
    Validate(inv.event).Accepted? &&
    var text := Validate(inv.event).text;
    var a := inv.detect(text, cfg.languageCode);
    a.Some? &&
    m.payload.id == inv.id && m.payload.timestamp == inv.timestamp &&
    m.payload.message == text && m.payload.sentiment == a.value.sentiment && m.payload.scores == a.value.scores &&
    m.payload.priority == Route(cfg, a.value.scores).0 &&
    m.queueUrl == QueueFor(cfg, m.payload.priority)
  }

  function Last<T>(s: seq<T>): T
    requires s != []
  {
    s[|s| - 1]
  }

  /** One invocation of the handler. */
  function Handle(cfg: Config, st: Store, inv: Invocation): (r: (Store, Response))
    // every response has the JSON envelope
    ensures r.1.headers == JsonHeaders
    // a rejected or unparsable body has no effect at all, not even a provider call
    ensures Validate(inv.event).Rejected? ==> r == (st, Invalid)
    ensures Validate(inv.event).Broken? ==> r == (st, Internal)
    // an accepted message is sent to the provider exactly once, with the configured language
    ensures Validate(inv.event).Accepted? ==>
      r.0.detections == st.detections + [Detection(Validate(inv.event).text, cfg.languageCode)]
    // 200 exactly when every step succeeds; any later failure is the generic 500
    ensures r.1.statusCode == 200 <==> Succeeds(cfg, inv)
    ensures Validate(inv.event).Accepted? && !Succeeds(cfg, inv) ==> r.1 == Internal
    // at most one message is sent, appended to the earlier ones, and it is the routed one
    ensures r.0.sent == st.sent || (r.0.sent != [] && r.0.sent == st.sent + [Last(r.0.sent)])
    ensures r.0.sent != st.sent ==> RoutedMessage(cfg, inv, Last(r.0.sent))
    ensures r.0.sent != st.sent <==>
      (Validate(inv.event).Accepted? && inv.detect(Validate(inv.event).text, cfg.languageCode).Some? && inv.sendOk)
    // the audit store gains at most the copy of the message just sent, under its audit key
    ensures r.0.audit == st.audit ||
      (AuditEnabled(cfg) && r.0.sent != st.sent &&
       r.0.audit == st.audit[AuditKey(inv.id) := Last(r.0.sent).payload])
    // on success: one message, audited exactly when auditing is configured, echoed in the response
    ensures r.1.statusCode == 200 ==>
      r.0.sent != st.sent &&
      r.0.audit == (if AuditEnabled(cfg) then st.audit[AuditKey(inv.id) := Last(r.0.sent).payload] else st.audit) &&
      r.1.body == SuccessBody(Last(r.0.sent).payload,
                              FriendlyMessage(Last(r.0.sent).payload.sentiment, Last(r.0.sent).payload.priority.Name()))
  {
    match Validate(inv.event)
    case Broken => (st, Internal)
    case Rejected => (st, Invalid)
    case Accepted(text) =>
      var st1 := st.(detections := st.detections + [Detection(text, cfg.languageCode)]);
      match inv.detect(text, cfg.languageCode)
      case None => (st1, Internal)
      case Some(a) =>
        var (tier, queueUrl) := Route(cfg, a.scores);
        var p := Assemble(inv.id, text, a.sentiment, a.scores, tier, inv.timestamp);
        if !inv.sendOk then (st1, Internal)
        else
          var st2 := st1.(sent := st1.sent + [Message(queueUrl, p)]);
          if AuditEnabled(cfg) && !inv.putOk then (st2, Internal)
          else
            var st3 := if AuditEnabled(cfg) then st2.(audit := st2.audit[AuditKey(p.id) := p]) else st2;
            (st3, Respond(200, SuccessBody(p, FriendlyMessage(a.sentiment, tier.Name()))))
  }

  /** A sequence of invocations handled one after another: each sends at most one message and none is withdrawn. */
  function Run(cfg: Config, st: Store, invs: seq<Invocation>): (r: Store)
    ensures |st.sent| <= |r.sent| <= |st.sent| + |invs|
    ensures r.sent[..|st.sent|] == st.sent
    decreases |invs|
  {
    if invs == [] then st
    else
      var next := Handle(cfg, st, invs[0]).0;
      var r := Run(cfg, next, invs[1..]);
      assert next.sent[..|st.sent|] == st.sent && |st.sent| <= |next.sent| <= |st.sent| + 1;
      assert r.sent[..|st.sent|] == r.sent[..|next.sent|][..|st.sent|];
      r
  }

  // ----- invariants of the outside world -----

  /** Every audit object is stored under its own id's key and is a copy of a message that was sent. */
  ghost predicate AuditMirrorsQueue(st: Store) {
    forall k | k in st.audit ::
      k == AuditKey(st.audit[k].id) && exists i | 0 <= i < |st.sent| :: st.sent[i].payload == st.audit[k]
  }

  /** Every message that was sent has its audit copy under its key. */
  ghost predicate AuditCoversQueue(st: Store) {
    forall i | 0 <= i < |st.sent| ::
      AuditKey(st.sent[i].payload.id) in st.audit && st.audit[AuditKey(st.sent[i].payload.id)] == st.sent[i].payload
  }

  /** No two messages sent carry the same payload id. */
  ghost predicate IdsDistinct(st: Store) {
    forall i, j | 0 <= i < j < |st.sent| :: st.sent[i].payload.id != st.sent[j].payload.id
  }

  /** No message sent so far carries `id`. */
  ghost predicate IdUnused(st: Store, id: string) {
    forall i | 0 <= i < |st.sent| :: st.sent[i].payload.id != id
  }

  /** The invocations are given pairwise different ids. */
  ghost predicate FreshIds(invs: seq<Invocation>) {
    forall i, j | 0 <= i < j < |invs| :: invs[i].id != invs[j].id
  }

  lemma HandleKeepsAuditMirror(cfg: Config, st: Store, inv: Invocation)
    requires AuditMirrorsQueue(st)
    ensures AuditMirrorsQueue(Handle(cfg, st, inv).0)
  {
    var st' := Handle(cfg, st, inv).0;
    forall k | k in st'.audit
      ensures k == AuditKey(st'.audit[k].id) && exists i | 0 <= i < |st'.sent| :: st'.sent[i].payload == st'.audit[k]
    {
      if k in st.audit && st'.audit[k] == st.audit[k] {
        var i :| 0 <= i < |st.sent| && st.sent[i].payload == st.audit[k];
        assert st'.sent[i] == st.sent[i];
      } else {
        assert st'.sent != st.sent && k == AuditKey(inv.id) && st'.audit[k] == Last(st'.sent).payload;
        assert st'.sent[|st'.sent| - 1].payload == st'.audit[k];
      }
    }
  }

  lemma HandleKeepsIdsDistinct(cfg: Config, st: Store, inv: Invocation)
    requires IdsDistinct(st) && IdUnused(st, inv.id)
    ensures IdsDistinct(Handle(cfg, st, inv).0)
  {
  }

  lemma HandleUsesOnlyItsId(cfg: Config, st: Store, inv: Invocation, id: string)
    requires IdUnused(st, id) && id != inv.id
    ensures IdUnused(Handle(cfg, st, inv).0, id)
  {
  }

  lemma HandleKeepsAuditCover(cfg: Config, st: Store, inv: Invocation)
    requires AuditEnabled(cfg) && inv.putOk
    requires AuditCoversQueue(st) && IdUnused(st, inv.id)
    ensures AuditCoversQueue(Handle(cfg, st, inv).0)
  {
    var st' := Handle(cfg, st, inv).0;
    if st'.sent != st.sent {
      forall i | 0 <= i < |st'.sent|
        ensures AuditKey(st'.sent[i].payload.id) in st'.audit &&
                st'.audit[AuditKey(st'.sent[i].payload.id)] == st'.sent[i].payload
      {
        if i < |st.sent| {
          assert st'.sent[i] == st.sent[i];
          AuditKeyInjective(st.sent[i].payload.id, inv.id);
        }
      }
    }
  }

  /** However many invocations run, and whatever fails in them, the audit store only holds copies of sent messages. */
  lemma {:induction false} RunKeepsAuditMirror(cfg: Config, st: Store, invs: seq<Invocation>)
    requires AuditMirrorsQueue(st)
    ensures AuditMirrorsQueue(Run(cfg, st, invs))
    decreases |invs|
  {
    if invs != [] {
      HandleKeepsAuditMirror(cfg, st, invs[0]);
      RunKeepsAuditMirror(cfg, Handle(cfg, st, invs[0]).0, invs[1..]);
    }
  }

  /**
   * With fresh ids per invocation, the messages sent carry distinct ids; and
   * when auditing is configured and no audit write fails, every message sent
   * has its audit copy.
   */
  lemma {:induction false} RunWithFreshIds(cfg: Config, st: Store, invs: seq<Invocation>)
    requires IdsDistinct(st) && FreshIds(invs)
    requires forall k | 0 <= k < |invs| :: IdUnused(st, invs[k].id)
    ensures IdsDistinct(Run(cfg, st, invs))
    ensures AuditEnabled(cfg) && AuditCoversQueue(st) && (forall k | 0 <= k < |invs| :: invs[k].putOk) ==>
      AuditCoversQueue(Run(cfg, st, invs))
    decreases |invs|
  {
    if invs != [] {
      var st' := Handle(cfg, st, invs[0]).0;
      HandleKeepsIdsDistinct(cfg, st, invs[0]);
      forall k | 0 <= k < |invs[1..]| ensures IdUnused(st', invs[1..][k].id) {
        HandleUsesOnlyItsId(cfg, st, invs[0], invs[k + 1].id);
      }
      if AuditEnabled(cfg) && AuditCoversQueue(st) && (forall k | 0 <= k < |invs| :: invs[k].putOk) {
        HandleKeepsAuditCover(cfg, st, invs[0]);
      }
      RunWithFreshIds(cfg, st', invs[1..]);
    }
  }

  // ----- single-invocation consequences -----

  /**
   * Every response is the JSON envelope with status 200, 400 or 500, and every
   * error response carries one of the two fixed error texts.
   */
  lemma EveryResponseIsJsonEnvelope(cfg: Config, st: Store, inv: Invocation)
    ensures var resp := Handle(cfg, st, inv).1;
      resp.headers == map["Content-Type" := "application/json"] &&
      resp.statusCode in {200, 400, 500} &&
      (resp.statusCode == 400 ==> ErrorOf(resp.body) == Some("Missing or invalid 'message' field")) &&
      (resp.statusCode == 500 ==> ErrorOf(resp.body) == Some("Internal server error")) &&
      (resp.statusCode == 200 ==> ErrorOf(resp.body) == None)
  {
    var r := Handle(cfg, st, inv);
    if r.1.statusCode == 200 {
      var p := Last(r.0.sent).payload;
      SuccessBodyEchoesPayload(p, FriendlyMessage(p.sentiment, p.priority.Name()));
    }
  }

  /**
   * An audit write that fails after the send still yields the generic 500,
   * although the message is already in its queue.
   */
  lemma AuditFailureAfterSend(cfg: Config, st: Store, inv: Invocation)
    requires Validate(inv.event).Accepted? && inv.detect(Validate(inv.event).text, cfg.languageCode).Some?
    requires inv.sendOk && AuditEnabled(cfg) && !inv.putOk
    ensures Handle(cfg, st, inv).1 == Internal
    ensures |Handle(cfg, st, inv).0.sent| == |st.sent| + 1
    ensures Handle(cfg, st, inv).0.audit == st.audit
  {
  }

  /** A client of a 200 gets the payload back, with a summary agreeing with the message sent. */
  lemma SuccessEchoesSentPayload(cfg: Config, st: Store, inv: Invocation)
    requires Succeeds(cfg, inv)
    ensures var (st', resp) := Handle(cfg, st, inv);
      st'.sent != st.sent &&
      DataOf(resp.body) == Some(Last(st'.sent).payload) &&
      SummaryOf(resp.body) == Some((Last(st'.sent).payload.sentiment, Some(Last(st'.sent).payload.priority),
                                    FriendlyMessage(Last(st'.sent).payload.sentiment, Last(st'.sent).payload.priority.Name())))
  {
    var (st', resp) := Handle(cfg, st, inv);
    var p := Last(st'.sent).payload;
    SuccessBodyEchoesPayload(p, FriendlyMessage(p.sentiment, p.priority.Name()));
  }

  /**
   * The summary text follows the label, not the routed tier: a NEGATIVE message
   * whose Negative score is 0.6 is routed NORMAL under the default thresholds,
   * while its summary still says it was marked high priority.
   */
  lemma SummaryTextCanDisagreeWithPriority(st: Store, high: string, normal: string, low: string,
                                           id: string, timestamp: string)
    ensures var cfg := DefaultConfig(high, normal, low, None);
      var inv := Invocation(Body(Some(JObj(map["message" := JStr("meh")]))),
                            (text, lang) => Some(Analysis("NEGATIVE", map["Negative" := 0.6])),
                            id, timestamp, true, true);
      var (st', resp) := Handle(cfg, st, inv);
      resp.statusCode == 200 &&
      Last(st'.sent).payload.priority == NORMAL && Last(st'.sent).queueUrl == normal &&
      SummaryOf(resp.body).Some? && SummaryOf(resp.body).value.1 == Some(NORMAL) &&
      Mentions(SummaryOf(resp.body).value.2, Phrase(HIGH))
  {
    var cfg := DefaultConfig(high, normal, low, None);
    var inv := Invocation(Body(Some(JObj(map["message" := JStr("meh")]))),
                          (text, lang) => Some(Analysis("NEGATIVE", map["Negative" := 0.6])),
                          id, timestamp, true, true);
    var (st', resp) := Handle(cfg, st, inv);
    var p := Last(st'.sent).payload;
    SuccessBodyEchoesPayload(p, FriendlyMessage(p.sentiment, p.priority.Name()));
  }
}
