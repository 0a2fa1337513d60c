/**
 * The priority router of the smart inbox: a sentiment score map is turned into a
 * priority tier and the queue that serves that tier.
 */
module Routing {
  import opened Wrappers

  /** The process-wide configuration read from the environment once at start-up. */
  datatype Config = Config(
    negativeThreshold: real,
    positiveThreshold: real,
    languageCode: string,
    highQueueUrl: string,
    normalQueueUrl: string,
    lowQueueUrl: string,
    auditBucket: Option<string>)

  /**
   * The configuration with the documented defaults: both thresholds 0.7 and
   * language "pt"; the queue URLs are required and the audit bucket optional.
   */
  function DefaultConfig(highQueueUrl: string, normalQueueUrl: string, lowQueueUrl: string,
                         auditBucket: Option<string>): Config
  {
    Config(0.7, 0.7, "pt", highQueueUrl, normalQueueUrl, lowQueueUrl, auditBucket)
  }

  /** The audit copy is written only when the bucket variable is set and non-empty. */
  predicate AuditEnabled(cfg: Config) {
    cfg.auditBucket.Some? && cfg.auditBucket.value != ""
  }

  datatype Tier = HIGH | NORMAL | LOW {
    /** The tier as it appears in payloads and responses. */
    function Name(): string {
      match this
      case HIGH => "HIGH"
      case NORMAL => "NORMAL"
      case LOW => "LOW"
    }
  }

  /** Reads a tier back from its name. */
  function TierNamed(name: string): (t: Option<Tier>)
    ensures t.Some? ==> t.value.Name() == name
    ensures forall u: Tier :: u.Name() == name ==> t == Some(u)
  {
    if name == "HIGH" then Some(HIGH)
    else if name == "NORMAL" then Some(NORMAL)
    else if name == "LOW" then Some(LOW)
    else None
  }

  /** The queue that serves each tier. */
  function QueueFor(cfg: Config, t: Tier): string {
    match t
    case HIGH => cfg.highQueueUrl
    case NORMAL => cfg.normalQueueUrl
    case LOW => cfg.lowQueueUrl
  }

  /** `scores.get(key, 0)`: a missing score counts as zero. */
  function Score(scores: map<string, real>, key: string): real {
    if key in scores then scores[key] else 0.0
  }

  /**
   * The router. The negative rule is tried first, so a message at or above both
   * thresholds goes HIGH; the tier is decided by the Negative and Positive
   * scores alone, and the queue is always the one that serves the tier.
   */
  function Route(cfg: Config, scores: map<string, real>): (r: (Tier, string))
    ensures r.1 == QueueFor(cfg, r.0)
    ensures r.0 == HIGH <==> Score(scores, "Negative") >= cfg.negativeThreshold
    ensures r.0 == LOW <==>
      Score(scores, "Negative") < cfg.negativeThreshold && Score(scores, "Positive") >= cfg.positiveThreshold
    ensures r.0 == NORMAL <==>
      Score(scores, "Negative") < cfg.negativeThreshold && Score(scores, "Positive") < cfg.positiveThreshold
  {
    if Score(scores, "Negative") >= cfg.negativeThreshold then (HIGH, cfg.highQueueUrl)
    else if Score(scores, "Positive") >= cfg.positiveThreshold then (LOW, cfg.lowQueueUrl)
    else (NORMAL, cfg.normalQueueUrl)
  }

  /** Only the Negative and Positive entries of the score map influence the route. */
  lemma RouteReadsOnlyNegativeAndPositive(cfg: Config, s1: map<string, real>, s2: map<string, real>)
    requires Score(s1, "Negative") == Score(s2, "Negative")
    requires Score(s1, "Positive") == Score(s2, "Positive")
    ensures Route(cfg, s1) == Route(cfg, s2)
  {
  }

  /** With positive thresholds, a message without any scores is routed NORMAL. */
  lemma EmptyScoresRouteNormal(cfg: Config)
    requires cfg.negativeThreshold > 0.0 && cfg.positiveThreshold > 0.0
    ensures Route(cfg, map[]) == (NORMAL, cfg.normalQueueUrl)
  {
  }

  /** Raising the Negative score never takes a message out of the HIGH tier. */
  lemma RaisingNegativeKeepsHigh(cfg: Config, scores: map<string, real>, x: real)
    requires Route(cfg, scores).0 == HIGH
    requires x >= Score(scores, "Negative")
    ensures Route(cfg, scores["Negative" := x]) == (HIGH, cfg.highQueueUrl)
  {
  }

  /**
   * The router is an ordered first-match rule list, not a comparison of scores:
   * under the default thresholds a message that is more positive than negative
   * still goes HIGH once its Negative score reaches 0.7.
   */
  lemma FirstMatchNotLargestScore(high: string, normal: string, low: string)
    ensures var scores := map["Negative" := 0.7, "Positive" := 0.9];
            Score(scores, "Positive") > Score(scores, "Negative") &&
            Route(DefaultConfig(high, normal, low, None), scores) == (HIGH, high)
  {
  }
}
