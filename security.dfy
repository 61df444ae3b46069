/**
 * backend/app/core/security.py: the per-IP sliding-window limiter in front of
 * /api/analyze, client-IP extraction, and the reCAPTCHA v3 accept/reject
 * decision once Google's verifier has answered.
 */
module Security {

  import opened Wrappers
  import opened Text
  import Seqs

  /** The rolling window, one hour. */
  const WindowSeconds: int := 3600
  /** MAX_ANALYSES_PER_HOUR when the environment does not set it. */
  const DefaultMaxAnalysesPerHour: int := 5
  /** RECAPTCHA_MIN_SCORE when the environment does not set it. */
  const DefaultRecaptchaMinScore: real := 0.5

  /** `_analyze_log[ip]` on a defaultdict(list): a missing IP reads as the empty list. */
  function History(log: map<string, seq<int>>, ip: string): seq<int> {
    if ip in log then log[ip] else []
  }

  predicate InWindow(now: int, t: int) {
    t > now - WindowSeconds
  }

  /** `[t for t in ts if t > cutoff]`: exactly the entries later than an hour ago, in order. */
  function Pruned(ts: seq<int>, now: int): (r: seq<int>)
    ensures forall k :: 0 <= k < |r| ==> r[k] > now - WindowSeconds
    ensures forall k :: 0 <= k < |ts| && ts[k] > now - WindowSeconds ==> ts[k] in r
    ensures Seqs.IsSubsequence(r, ts)
    ensures |r| <= |ts|
    ensures multiset(r) <= multiset(ts)
    ensures forall k :: 0 <= k < |ts| && ts[k] > now - WindowSeconds ==> multiset(r)[ts[k]] == multiset(ts)[ts[k]]
  {
    var keep := t => InWindow(now, t);
    Seqs.FilterIsSubsequence(ts, keep);
    Seqs.FilterMultiset(ts, keep);
    Seqs.Filter(ts, keep)
  }

  datatype RateOutcome =
    | Admitted
      /** HTTP 429 with detail error "rate_limit" and these two numbers in its message. */
    | RateLimited(retryAfterSeconds: int, retryMinutes: int)
      /** `_analyze_log[ip][0]` on an empty list: only when the limit is 0 or negative. */
    | IndexError

  /** What check_rate_limit does once the IP's list is pruned. */
  function Decide(pruned: seq<int>, now: int, maxPerHour: int): (o: RateOutcome)
    ensures o.Admitted? <==> |pruned| < maxPerHour
    ensures o.IndexError? <==> |pruned| >= maxPerHour && pruned == []
    ensures o.RateLimited? ==> pruned != [] && o.retryAfterSeconds == WindowSeconds - (now - pruned[0])
    ensures o.RateLimited? ==> o.retryMinutes * 60 <= o.retryAfterSeconds < o.retryMinutes * 60 + 60
  {
    if |pruned| >= maxPerHour then
      if pruned == [] then IndexError
      else
        var retryIn := WindowSeconds - (now - pruned[0]);
        RateLimited(retryIn, retryIn / 60)
    else Admitted
  }

  /**
   * With integer timestamps that are never later than `now`, the advertised
   * wait is between one second and one hour.
   */
  lemma RetryAfterInRange(pruned: seq<int>, now: int, maxPerHour: int)
    requires forall k :: 0 <= k < |pruned| ==> now - WindowSeconds < pruned[k] <= now
    requires Decide(pruned, now, maxPerHour).RateLimited?
    ensures 1 <= Decide(pruned, now, maxPerHour).retryAfterSeconds <= WindowSeconds
    ensures 0 <= Decide(pruned, now, maxPerHour).retryMinutes <= 60
  {
    var o := Decide(pruned, now, maxPerHour);
    assert now - WindowSeconds < pruned[0] <= now;
    assert 1 <= o.retryAfterSeconds <= WindowSeconds;
  }

  /** The module-level `_analyze_log`, owned by one limiter object. */
  class RateLimiter {
    var log: map<string, seq<int>>
    const maxPerHour: int

    /** No IP ever holds more timestamps than the limit (none when the limit is not positive). */
    ghost predicate Valid()
      reads this
    {
      forall ip :: ip in log ==> |log[ip]| <= (if maxPerHour < 0 then 0 else maxPerHour)
    }

    constructor (maxPerHour: int)
      ensures Valid()
      ensures this.maxPerHour == maxPerHour && log == map[]
    {
      this.maxPerHour := maxPerHour;
      log := map[];
    }

    /** check_rate_limit for a request from `ip` at time `now`. */
    method CheckRateLimit(ip: string, now: int) returns (outcome: RateOutcome)
      requires Valid()
      modifies this
      ensures Valid()
      ensures outcome == Decide(Pruned(History(old(log), ip), now), now, maxPerHour)
      ensures log == old(log)[ip := Pruned(History(old(log), ip), now) + (if outcome.Admitted? then [now] else [])]
      ensures forall k :: 0 <= k < |log[ip]| ==> log[ip][k] > now - WindowSeconds
      ensures outcome.Admitted? ==> |log[ip]| == |Pruned(History(old(log), ip), now)| + 1 <= maxPerHour
      ensures !outcome.Admitted? ==> |log[ip]| >= maxPerHour
      ensures forall other :: other != ip ==> (other in log <==> other in old(log))
      ensures forall other :: other != ip && other in old(log) ==> log[other] == old(log)[other]
    {
      var kept := Pruned(History(log, ip), now);
      log := log[ip := kept];
      outcome := Decide(kept, now, maxPerHour);
      if outcome.Admitted? {
        log := log[ip := kept + [now]];
      } else {
        assert kept + [] == kept;
      }
    }
  }

  /**
   * get_client_ip: the first comma-separated entry of a non-empty
   * X-Forwarded-For header, stripped; else the socket's host; else "unknown".
   */
  function ClientIp(forwardedFor: Option<string>, clientHost: Option<string>): (ip: string)
    ensures forwardedFor.Some? && forwardedFor.value != [] ==>
      var h := forwardedFor.value;
      exists k :: 0 <= k <= |h| && (k == |h| || h[k] == ',') && ',' !in h[..k] && ip == Trim(h[..k])
    ensures forwardedFor.Some? && forwardedFor.value != [] ==> ',' !in ip
    ensures (forwardedFor.None? || forwardedFor.value == []) ==> ip == clientHost.GetOr("unknown")
  {
    if forwardedFor.Some? && forwardedFor.value != [] then
      var h := forwardedFor.value;
      SplitFirstPiece(h, ',');
      TrimInside(Split(h, ',')[0]);
      Trim(Split(h, ',')[0])
    else clientHost.GetOr("unknown")
  }

  /** The 403 detail codes verify_recaptcha raises. */
  datatype CaptchaOutcome = Accepted | Rejected(status: int, error: string)

  /** The JSON body of Google's siteverify answer: `success`, and `score` when present. */
  datatype VerifyAnswer = VerifyAnswer(success: bool, score: Option<real>)

  /**
   * verify_recaptcha once the verifier has answered: an unset secret skips the
   * check, an unsuccessful answer is "captcha_failed", a score (0 when absent)
   * below the minimum is "bot_detected".
   */
  function RecaptchaDecision(secret: string, answer: VerifyAnswer, minScore: real): (r: CaptchaOutcome)
    ensures secret == [] ==> r == Accepted
    ensures r == Accepted <==> secret == [] || (answer.success && answer.score.GetOr(0.0) >= minScore)
    ensures r == Rejected(403, "captcha_failed") <==> secret != [] && !answer.success
    ensures r == Rejected(403, "bot_detected") <==> secret != [] && answer.success && answer.score.GetOr(0.0) < minScore
  {
    if secret == [] then Accepted
    else if !answer.success then Rejected(403, "captcha_failed")
    else if answer.score.GetOr(0.0) < minScore then Rejected(403, "bot_detected")
    else Accepted
  }
}
