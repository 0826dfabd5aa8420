/**
 * Request admission and payload rewriting in the OpenAI-compatible gateway
 * (backend/internal/handlers/openai.go): the global sliding-window rate
 * limiter, the per-provider/per-model custom rate-limit rules, the
 * concurrency counter, keyword-based error substitution, system-prompt
 * injection, the stream-mode override and the model-id rewrites.
 *
 * The package-level `requestTimes`, `customRequestTimes` and
 * `currentConcurrency` variables are the fields of one `Gateway` object; the
 * mutexes and atomics that guard them are left out, so each call is one
 * sequential step. Times are integer nanoseconds, passed in.
 */
module Gateway {
  import opened Wrappers
  import opened Text
  import opened Json
  import opened Settings

  const NsPerSecond: int := 1_000_000_000

  // ---------------------------------------------------------------------------
  // Sliding windows

  /** The timestamps strictly after `windowStart` (`t.After(windowStart)`), in order. */
  function Prune(times: seq<int>, windowStart: int): (kept: seq<int>)
    ensures |kept| <= |times|
    ensures forall i :: 0 <= i < |kept| ==> kept[i] > windowStart
    decreases |times|
  {
    if times == [] then []
    else
      var last := times[|times| - 1];
      Prune(times[..|times| - 1], windowStart) + (if last > windowStart then [last] else [])
  }

  /** Pruning keeps exactly the timestamps inside the window. */
  lemma {:induction false} PruneMembers(times: seq<int>, windowStart: int, t: int)
    ensures t in Prune(times, windowStart) <==> t in times && t > windowStart
    decreases |times|
  {
    if times != [] {
      var init := times[..|times| - 1];
      PruneMembers(init, windowStart, t);
      assert times == init + [times[|times| - 1]];
    }
  }

  /** A list already inside the window is left as it is. */
  lemma {:induction false} PruneInside(times: seq<int>, windowStart: int)
    requires forall i :: 0 <= i < |times| ==> times[i] > windowStart
    ensures Prune(times, windowStart) == times
    decreases |times|
  {
    if times != [] {
      var init := times[..|times| - 1];
      PruneInside(init, windowStart);
      assert times == init + [times[|times| - 1]];
    }
  }

  /** The cleaning loop: keep the timestamps after `windowStart`, in order. */
  method PruneTimes(times: seq<int>, windowStart: int) returns (kept: seq<int>)
    ensures kept == Prune(times, windowStart)
  {
    kept := [];
    var i := 0;
    while i < |times|
      invariant 0 <= i <= |times|
      invariant kept == Prune(times[..i], windowStart)
    {
      assert times[..i + 1][..i] == times[..i];
      if times[i] > windowStart {
        kept := kept + [times[i]];
      }
      i := i + 1;
    }
    assert times[..i] == times;
  }

  /** The start of a window of `window` seconds ending at `now`. */
  function WindowStart(now: int, window: int): int {
    now - window * NsPerSecond
  }

  /**
   * One sliding-window check: prune, refuse when `maxRequests` requests are
   * already in the window, otherwise record `now`.
   */
  function Admit(times: seq<int>, now: int, maxRequests: int, window: int): (r: (bool, seq<int>))
    ensures r.0 ==> |r.1| <= maxRequests
    ensures !r.0 ==> |r.1| >= maxRequests
  {
    var kept := Prune(times, WindowStart(now, window));
    if |kept| >= maxRequests then (false, kept) else (true, kept + [now])
  }

  /**
   * Admission is decided by the count inside the window alone, and only an
   * admitted request is recorded; either way the stale timestamps are gone.
   */
  lemma AdmitRecordsOnlyAdmitted(times: seq<int>, now: int, maxRequests: int, window: int)
    ensures var kept := Prune(times, WindowStart(now, window));
      var r := Admit(times, now, maxRequests, window);
      (r.0 <==> |kept| < maxRequests) &&
      r.1[..|kept|] == kept &&
      (r.0 ==> r.1 == kept + [now]) &&
      (!r.0 ==> r.1 == kept)
  {
  }

  /** No stored timestamp is at or before the window start. */
  lemma AdmitKeepsWindow(times: seq<int>, now: int, maxRequests: int, window: int)
    requires window > 0
    ensures var r := Admit(times, now, maxRequests, window);
      forall i :: 0 <= i < |r.1| ==> r.1[i] > WindowStart(now, window)
  {
  }

  /**
   * The limit is never exceeded: a log holding at most `maxRequests`
   * timestamps still holds at most that many after any check.
   */
  lemma AdmitPreservesBound(times: seq<int>, now: int, maxRequests: int, window: int)
    requires |times| <= maxRequests
    ensures |Admit(times, now, maxRequests, window).1| <= maxRequests
  {
  }

  /**
   * Requests inside one window: with at most `maxRequests - 1` of them recent,
   * the next is admitted; a request is refused only when the window is full.
   */
  lemma AdmitWhenRoom(times: seq<int>, now: int, maxRequests: int, window: int)
    requires window > 0
    requires forall i :: 0 <= i < |times| ==> times[i] > WindowStart(now, window)
    ensures Admit(times, now, maxRequests, window).0 <==> |times| < maxRequests
  {
    PruneInside(times, WindowStart(now, window));
  }

  // ---------------------------------------------------------------------------
  // Settings as the enforcement reads them

  /** The global limiter's configuration: off, or a positive count and window. */
  datatype LimitConfig = Unlimited | Limited(maxRequests: int, window: int)

  /**
   * getRateLimitSettings: off unless `rate_limit_enabled` is "true"; a missing,
   * unparsable or non-positive count or window falls back to 60.
   */
  function RateLimitConfig(m: SettingsMap): (c: LimitConfig)
    ensures c.Unlimited? <==> !ReadBool(m, RateLimitEnabledKey)
    ensures c.Limited? ==> c.maxRequests > 0 && c.window > 0
    ensures c.Limited? && (RateLimitMaxKey !in m || AtoiOrZero(m[RateLimitMaxKey]) <= 0) ==> c.maxRequests == 60
    ensures c.Limited? && RateLimitMaxKey in m && AtoiOrZero(m[RateLimitMaxKey]) > 0 ==> c.maxRequests == AtoiOrZero(m[RateLimitMaxKey])
    ensures c.Limited? && (RateLimitWindowKey !in m || AtoiOrZero(m[RateLimitWindowKey]) <= 0) ==> c.window == 60
    ensures c.Limited? && RateLimitWindowKey in m && AtoiOrZero(m[RateLimitWindowKey]) > 0 ==> c.window == AtoiOrZero(m[RateLimitWindowKey])
  {
    if !ReadBool(m, RateLimitEnabledKey) then Unlimited
    else
      var v := RateLimitSettings(m);
      Limited(v.maxRequests, v.window)
  }

  /** What the settings page shows is what the limiter enforces. */
  lemma RateLimitConfigAgrees(m: SettingsMap)
    ensures var c := RateLimitConfig(m);
      c.Limited? ==> c == Limited(RateLimitSettings(m).maxRequests, RateLimitSettings(m).window)
    ensures RateLimitConfig(m).Unlimited? <==> !RateLimitSettings(m).enabled
  {
  }

  /**
   * getConcurrencyLimit: 0 (no limit) unless `concurrency_enabled` is "true"
   * and the stored limit parses to a positive number.
   */
  function ConcurrencyLimit(m: SettingsMap): (limit: int)
    ensures limit >= 0
    ensures !ReadBool(m, ConcurrencyEnabledKey) ==> limit == 0
    ensures ReadBool(m, ConcurrencyEnabledKey) && ConcurrencyLimitKey in m && AtoiOrZero(m[ConcurrencyLimitKey]) > 0 ==>
      limit == AtoiOrZero(m[ConcurrencyLimitKey])
    ensures ReadBool(m, ConcurrencyEnabledKey) && (ConcurrencyLimitKey !in m || AtoiOrZero(m[ConcurrencyLimitKey]) <= 0) ==>
      limit == 0
  {
    if !ReadBool(m, ConcurrencyEnabledKey) then 0
    else
      var n := AtoiOrZero(Get(m, ConcurrencyLimitKey).GetOr(""));
      if n <= 0 then 0 else n
  }

  /**
   * The settings page and the enforcement disagree on a non-positive stored
   * limit: the page reports 10, the counter treats it as unlimited.
   */
  lemma ConcurrencyDisplayDiffers(m: SettingsMap, current: int)
    requires ReadBool(m, ConcurrencyEnabledKey)
    requires ConcurrencyLimitKey in m && AtoiOrZero(m[ConcurrencyLimitKey]) <= 0
    ensures ConcurrencyLimit(m) == 0
    ensures ConcurrencySettings(m, current).limit == 10
  {
  }

  /**
   * getMaxRetries: 3 when `max_retries` is missing or unparsable, otherwise the
   * parsed value (which may lie outside the 0..10 the settings page accepts).
   */
  function MaxRetries(m: SettingsMap): (n: int)
    ensures MaxRetriesKey !in m || Atoi(m[MaxRetriesKey]).None? ==> n == 3
    ensures MaxRetriesKey in m && Atoi(m[MaxRetriesKey]).Some? ==> n == Atoi(m[MaxRetriesKey]).value
  {
    match Get(m, MaxRetriesKey)
    case None => 3
    case Some(s) => Atoi(s).GetOr(3)
  }

  /**
   * The retry count the settings page shows agrees with the one used, except
   * for an unparsable stored value: the page shows 0, the proxy retries 3 times.
   */
  lemma MaxRetriesVsDisplay(m: SettingsMap)
    ensures MaxRetriesKey in m && Atoi(m[MaxRetriesKey]).None? ==> RetrySettings(m) == 0 && MaxRetries(m) == 3
    ensures !(MaxRetriesKey in m && Atoi(m[MaxRetriesKey]).None?) ==> RetrySettings(m) == MaxRetries(m)
  {
  }

  // ---------------------------------------------------------------------------
  // Custom rate-limit rules

  /**
   * The bucket a rule puts a request in, or None when the rule does not apply:
   * provider and model, provider alone, or model alone. A rule naming neither
   * applies to nothing.
   */
  function RuleKey(rule: CustomRateLimitRule, providerId: int, modelName: string): (key: Option<string>)
    ensures key.Some? ==> rule.providerId > 0 || rule.modelName != ""
    ensures key.Some? ==> (rule.providerId > 0 ==> rule.providerId == providerId) &&
                          (rule.modelName != "" ==> rule.modelName == modelName)
  {
    if rule.providerId > 0 && rule.modelName != "" then
      if rule.providerId == providerId && rule.modelName == modelName
      then Some("provider:" + Itoa(providerId) + ":model:" + modelName) else None
    else if rule.providerId > 0 then
      if rule.providerId == providerId then Some("provider:" + Itoa(providerId)) else None
    else if rule.modelName != "" then
      if rule.modelName == modelName then Some("model:" + modelName) else None
    else None
  }

  /** A rule applies exactly when every criterion it names matches, and it names one. */
  lemma RuleKeyMatches(rule: CustomRateLimitRule, providerId: int, modelName: string)
    ensures RuleKey(rule, providerId, modelName).Some? <==>
      (rule.providerId > 0 || rule.modelName != "") &&
      (rule.providerId > 0 ==> rule.providerId == providerId) &&
      (rule.modelName != "" ==> rule.modelName == modelName)
  {
  }

  /** Buckets of different kinds never share a key: "model:" keys are not "provider:" keys. */
  lemma RuleKeysSeparate(a: CustomRateLimitRule, b: CustomRateLimitRule, providerId: int, modelName: string)
    requires RuleKey(a, providerId, modelName).Some? && RuleKey(b, providerId, modelName).Some?
    requires a.providerId > 0 && b.providerId <= 0
    ensures RuleKey(a, providerId, modelName) != RuleKey(b, providerId, modelName)
  {
    assert RuleKey(a, providerId, modelName).value[0] == 'p';
    assert RuleKey(b, providerId, modelName).value[0] == 'm';
  }

  /** The outcome of checkCustomRateLimit: pass, or the name of the rule that refused. */
  datatype CustomVerdict = Pass | Refused(ruleName: string)

  /** Whether `rule` is enabled and applies to the request. */
  predicate Applies(rule: CustomRateLimitRule, providerId: int, modelName: string) {
    rule.enabled && RuleKey(rule, providerId, modelName).Some?
  }

  /**
   * One rule's turn: a rule that does not apply changes nothing; one that
   * applies is its own sliding window over its bucket, and on refusal reports
   * its name (the bucket stays pruned).
   */
  function RuleStep(rule: CustomRateLimitRule, buckets: map<string, seq<int>>, providerId: int,
                    modelName: string, now: int): (r: (Option<string>, map<string, seq<int>>))
    ensures r.0.Some? ==> r.0.value == rule.name && Applies(rule, providerId, modelName)
    ensures !Applies(rule, providerId, modelName) ==> r == (None, buckets)
  {
    var key := RuleKey(rule, providerId, modelName);
    if !rule.enabled || key.None? then (None, buckets)
    else
      var a := Admit(if key.value in buckets then buckets[key.value] else [], now, rule.maxRequests, rule.window);
      (if a.0 then None else Some(rule.name), buckets[key.value := a.1])
  }

  /**
   * The rule loop: each rule takes its turn in order; the first refusal ends
   * the loop with the buckets as they then are, so buckets of earlier rules
   * keep the request they recorded.
   */
  function CustomCheck(rules: seq<CustomRateLimitRule>, buckets: map<string, seq<int>>, providerId: int,
                       modelName: string, now: int): (r: (CustomVerdict, map<string, seq<int>>))
    decreases |rules|
  {
    if rules == [] then (Pass, buckets)
    else
      var step := RuleStep(rules[0], buckets, providerId, modelName, now);
      if step.0.Some? then (Refused(step.0.value), step.1)
      else CustomCheck(rules[1..], step.1, providerId, modelName, now)
  }

  /** A refusal names an enabled rule that applies to the request. */
  lemma {:induction false} CustomRefusalNamesRule(rules: seq<CustomRateLimitRule>, buckets: map<string, seq<int>>,
                                                  providerId: int, modelName: string, now: int)
    ensures var r := CustomCheck(rules, buckets, providerId, modelName, now);
      r.0.Refused? ==> exists i :: 0 <= i < |rules| && Applies(rules[i], providerId, modelName) &&
                                   rules[i].name == r.0.ruleName
    decreases |rules|
  {
    if rules != [] {
      var step := RuleStep(rules[0], buckets, providerId, modelName, now);
      var r := CustomCheck(rules, buckets, providerId, modelName, now);
      if step.0.None? && r.0.Refused? {
        CustomRefusalNamesRule(rules[1..], step.1, providerId, modelName, now);
        var i :| 0 <= i < |rules[1..]| && Applies(rules[1..][i], providerId, modelName) &&
                 rules[1..][i].name == r.0.ruleName;
        assert rules[i + 1] == rules[1..][i];
      }
    }
  }

  /** With no enabled rule that applies, the request passes and no bucket changes. */
  lemma {:induction false} CustomNoRuleApplies(rules: seq<CustomRateLimitRule>, buckets: map<string, seq<int>>,
                                               providerId: int, modelName: string, now: int)
    requires forall i :: 0 <= i < |rules| ==> !Applies(rules[i], providerId, modelName)
    ensures CustomCheck(rules, buckets, providerId, modelName, now) == (Pass, buckets)
    decreases |rules|
  {
    if rules != [] {
      CustomNoRuleApplies(rules[1..], buckets, providerId, modelName, now);
    }
  }

  /** Buckets of keys no applying rule uses are left alone. */
  lemma {:induction false} CustomOtherBucketsUnchanged(rules: seq<CustomRateLimitRule>, buckets: map<string, seq<int>>,
                                                       providerId: int, modelName: string, now: int, k: string)
    requires forall i :: 0 <= i < |rules| && Applies(rules[i], providerId, modelName) ==>
      RuleKey(rules[i], providerId, modelName).value != k
    ensures var after := CustomCheck(rules, buckets, providerId, modelName, now).1;
      (k in after <==> k in buckets) && (k in buckets ==> after[k] == buckets[k])
    decreases |rules|
  {
    if rules != [] {
      var step := RuleStep(rules[0], buckets, providerId, modelName, now);
      if step.0.None? {
        CustomOtherBucketsUnchanged(rules[1..], step.1, providerId, modelName, now, k);
      }
    }
  }

  /**
   * A single applying rule behaves like the global limiter on its own bucket:
   * it refuses exactly when the pruned bucket is full and records only an
   * admitted request.
   */
  lemma CustomSingleRule(rule: CustomRateLimitRule, buckets: map<string, seq<int>>,
                         providerId: int, modelName: string, now: int)
    requires Applies(rule, providerId, modelName)
    ensures var key := RuleKey(rule, providerId, modelName).value;
      var a := Admit(if key in buckets then buckets[key] else [], now, rule.maxRequests, rule.window);
      var r := CustomCheck([rule], buckets, providerId, modelName, now);
      (r.0.Pass? <==> a.0) && (r.0.Refused? ==> r.0.ruleName == rule.name) && r.1 == buckets[key := a.1]
  {
    assert [rule][1..] == [];
  }

  /**
   * getCustomRateLimitRules: no rules when the setting is missing or empty,
   * otherwise the decoded list.
   */
  function CustomRules(m: SettingsMap, decode: string -> seq<CustomRateLimitRule>): (rules: seq<CustomRateLimitRule>)
    ensures CustomRateLimitRulesKey !in m || m[CustomRateLimitRulesKey] == "" ==> rules == []
    ensures CustomRateLimitRulesKey in m && m[CustomRateLimitRulesKey] != "" ==> rules == decode(m[CustomRateLimitRulesKey])
  {
    var raw := Get(m, CustomRateLimitRulesKey).GetOr("");
    if raw == "" then [] else decode(raw)
  }

  // ---------------------------------------------------------------------------
  // The admission state

  class Gateway {
    /** requestTimes: the global limiter's log. */
    var requestTimes: seq<int>
    /** customRequestTimes: one log per rule bucket. */
    var buckets: map<string, seq<int>>
    /** currentConcurrency: requests in flight. */
    var inFlight: int

    constructor ()
      ensures requestTimes == [] && buckets == map[] && inFlight == 0
    {
      requestTimes := [];
      buckets := map[];
      inFlight := 0;
    }

    /** checkRateLimit: pass without recording when the limiter is off. */
    method CheckRateLimit(m: SettingsMap, now: int) returns (ok: bool)
      modifies this
      ensures RateLimitConfig(m).Unlimited? ==> ok && requestTimes == old(requestTimes)
      ensures var c := RateLimitConfig(m);
        c.Limited? ==> (ok, requestTimes) == Admit(old(requestTimes), now, c.maxRequests, c.window)
      ensures buckets == old(buckets) && inFlight == old(inFlight)
    {
      var config := RateLimitConfig(m);
      if config.Unlimited? {
        return true;
      }
      var windowStart := now - config.window * NsPerSecond;
      requestTimes := PruneTimes(requestTimes, windowStart);
      if |requestTimes| >= config.maxRequests {
        return false;
      }
      requestTimes := requestTimes + [now];
      return true;
    }

    /** checkCustomRateLimit: the rule loop over the buckets. */
    method CheckCustomRateLimit(rules: seq<CustomRateLimitRule>, providerId: int, modelName: string, now: int)
      returns (verdict: CustomVerdict)
      modifies this
      ensures (verdict, buckets) == CustomCheck(rules, old(buckets), providerId, modelName, now)
      ensures requestTimes == old(requestTimes) && inFlight == old(inFlight)
    {
      var i := 0;
      while i < |rules|
        invariant 0 <= i <= |rules|
        invariant requestTimes == old(requestTimes) && inFlight == old(inFlight)
        invariant CustomCheck(rules, old(buckets), providerId, modelName, now) ==
                  CustomCheck(rules[i..], buckets, providerId, modelName, now)
      {
        assert rules[i..][0] == rules[i] && rules[i..][1..] == rules[i + 1..];
        var refusedBy := ApplyRule(rules[i], providerId, modelName, now);
        if refusedBy.Some? {
          return Refused(refusedBy.value);
        }
        i := i + 1;
      }
      return Pass;
    }

    /** One iteration of the rule loop: match, prune the bucket, refuse or record. */
    method ApplyRule(rule: CustomRateLimitRule, providerId: int, modelName: string, now: int)
      returns (refusedBy: Option<string>)
      modifies this
      ensures (refusedBy, buckets) == RuleStep(rule, old(buckets), providerId, modelName, now)
      ensures requestTimes == old(requestTimes) && inFlight == old(inFlight)
    {
      var key := RuleKey(rule, providerId, modelName);
      if !rule.enabled || key.None? {
        return None;
      }
      var times := if key.value in buckets then buckets[key.value] else [];
      var kept := PruneTimes(times, now - rule.window * NsPerSecond);
      if |kept| >= rule.maxRequests {
        buckets := buckets[key.value := kept];
        return Some(rule.name);
      }
      buckets := buckets[key.value := kept + [now]];
      return None;
    }

    /**
     * acquireConcurrency: with no limit always take a slot; otherwise take one
     * only while fewer than `limit` are in flight.
     */
    method AcquireConcurrency(m: SettingsMap) returns (ok: bool)
      modifies this
      ensures var limit := ConcurrencyLimit(m);
        ok == (limit == 0 || old(inFlight) < limit)
      ensures inFlight == old(inFlight) + (if ok then 1 else 0)
      ensures (ok, inFlight) == Acquire(old(inFlight), ConcurrencyLimit(m))
      ensures ConcurrencyLimit(m) > 0 && old(inFlight) <= ConcurrencyLimit(m) ==> inFlight <= ConcurrencyLimit(m)
      ensures requestTimes == old(requestTimes) && buckets == old(buckets)
    {
      var limit := ConcurrencyLimit(m);
      if limit == 0 {
        inFlight := inFlight + 1;
        return true;
      }
      if inFlight >= limit {
        return false;
      }
      inFlight := inFlight + 1;
      return true;
    }

    /** releaseConcurrency: give back exactly one slot. */
    method ReleaseConcurrency()
      modifies this
      ensures inFlight == old(inFlight) - 1
      ensures requestTimes == old(requestTimes) && buckets == old(buckets)
    {
      inFlight := inFlight - 1;
    }
  }

  /**
   * The counter step of acquireConcurrency, as a value: the verdict and the
   * count after it. `AcquireConcurrency` is this step on the shared counter.
   */
  function Acquire(inFlight: int, limit: int): (r: (bool, int))
    requires limit >= 0
    ensures r.0 <==> limit == 0 || inFlight < limit
    ensures r.1 == inFlight + (if r.0 then 1 else 0)
  {
    if limit == 0 || inFlight < limit then (true, inFlight + 1) else (false, inFlight)
  }

  /**
   * Under a positive limit the counter never passes it, and an acquire that
   * succeeded followed by its release restores the count.
   */
  lemma AcquireBounded(inFlight: int, limit: int)
    requires limit > 0 && inFlight <= limit
    ensures Acquire(inFlight, limit).1 <= limit
    ensures Acquire(inFlight, limit).0 <==> inFlight < limit
    ensures Acquire(inFlight, limit).1 - (if Acquire(inFlight, limit).0 then 1 else 0) == inFlight
  {
  }

  // ---------------------------------------------------------------------------
  // Custom error responses

  /**
   * getCustomErrorRules: the decoded rules when `custom_error_enabled` is
   * "true" and `custom_error_rules` is stored; None (feature off) otherwise.
   */
  function CustomErrorRules(m: SettingsMap, decode: string -> seq<CustomErrorRule>): (rules: Option<seq<CustomErrorRule>>)
    ensures rules.Some? <==> ReadBool(m, CustomErrorEnabledKey) && CustomErrorRulesKey in m
    ensures rules.Some? ==> rules.value == decode(m[CustomErrorRulesKey])
  {
    if !ReadBool(m, CustomErrorEnabledKey) then None
    else match Get(m, CustomErrorRulesKey)
      case None => None
      case Some(raw) => Some(decode(raw))
  }

  /** A rule fires when its keyword is non-empty and occurs in the message, ignoring case. */
  predicate Fires(rule: CustomErrorRule, message: string) {
    rule.keyword != "" && Contains(ToLower(message), ToLower(rule.keyword))
  }

  /** The response of the first rule that fires. */
  function FirstFiring(rules: seq<CustomErrorRule>, message: string): Option<string>
    decreases |rules|
  {
    if rules == [] then None
    else if Fires(rules[0], message) then Some(rules[0].response)
    else FirstFiring(rules[1..], message)
  }

  /** checkCustomErrorResponse: the substitute response, or None to keep the original error. */
  function CheckCustomError(m: SettingsMap, decode: string -> seq<CustomErrorRule>, message: string): (r: Option<string>)
    ensures r.Some? ==> ReadBool(m, CustomErrorEnabledKey) && CustomErrorRulesKey in m
    ensures r.Some? ==> var rules := decode(m[CustomErrorRulesKey]);
      exists i :: 0 <= i < |rules| && Fires(rules[i], message) && rules[i].response == r.value
    ensures ReadBool(m, CustomErrorEnabledKey) && CustomErrorRulesKey in m &&
            (forall i :: 0 <= i < |decode(m[CustomErrorRulesKey])| ==> !Fires(decode(m[CustomErrorRulesKey])[i], message))
            ==> r.None?
  {
    match CustomErrorRules(m, decode)
    case None => None
    case Some(rules) =>
      FirstFiringIsFirst(rules, message);
      FirstFiring(rules, message)
  }

  /**
   * The substitute is the response of a rule that fires with no earlier rule
   * firing, and there is none exactly when no rule fires.
   */
  lemma {:induction false} FirstFiringIsFirst(rules: seq<CustomErrorRule>, message: string)
    ensures FirstFiring(rules, message).None? <==> forall i :: 0 <= i < |rules| ==> !Fires(rules[i], message)
    ensures FirstFiring(rules, message).Some? ==>
      exists i :: 0 <= i < |rules| && Fires(rules[i], message) && rules[i].response == FirstFiring(rules, message).value &&
                  forall j :: 0 <= j < i ==> !Fires(rules[j], message)
    decreases |rules|
  {
    if rules != [] && !Fires(rules[0], message) {
      FirstFiringIsFirst(rules[1..], message);
      if FirstFiring(rules, message).Some? {
        var i :| 0 <= i < |rules[1..]| && Fires(rules[1..][i], message) &&
                 rules[1..][i].response == FirstFiring(rules, message).value &&
                 forall j :: 0 <= j < i ==> !Fires(rules[1..][j], message);
        assert rules[i + 1] == rules[1..][i];
        forall j | 0 <= j < i + 1
          ensures !Fires(rules[j], message)
        {
          if j > 0 {
            assert rules[j] == rules[1..][j - 1];
          }
        }
      } else {
        forall i | 0 <= i < |rules|
          ensures !Fires(rules[i], message)
        {
          if i > 0 {
            assert rules[i] == rules[1..][i - 1];
          }
        }
      }
    } else if rules != [] {
      assert Fires(rules[0], message);
    }
  }

  /** With the feature off, or no rules stored, the original error stands. */
  lemma CustomErrorOff(m: SettingsMap, decode: string -> seq<CustomErrorRule>, message: string)
    requires !ReadBool(m, CustomErrorEnabledKey) || CustomErrorRulesKey !in m ||
             decode(m[CustomErrorRulesKey]) == []
    ensures CheckCustomError(m, decode, message).None?
  {
  }

  /** Lower-casing twice is lower-casing once. */
  lemma ToLowerIdempotent(s: string)
    ensures ToLower(ToLower(s)) == ToLower(s)
  {
    assert forall i :: 0 <= i < |s| ==> ToLower(ToLower(s))[i] == ToLower(s)[i];
  }

  /** Matching ignores the case of the message. */
  lemma {:induction false} FirstFiringIgnoresCase(rules: seq<CustomErrorRule>, message: string)
    ensures FirstFiring(rules, message) == FirstFiring(rules, ToLower(message))
    decreases |rules|
  {
    ToLowerIdempotent(message);
    if rules != [] {
      FirstFiringIgnoresCase(rules[1..], message);
    }
  }

  // ---------------------------------------------------------------------------
  // Model ids

  /**
   * The id sent upstream: a vertex_express provider's non-empty id gets
   * "google/" in front unless it already starts with it.
   */
  function UpstreamModelId(providerType: string, originalId: string): (id: string)
    ensures providerType != "vertex_express" || originalId == "" ==> id == originalId
    ensures providerType == "vertex_express" && originalId != "" ==> HasPrefix(id, "google/")
  {
    if providerType == "vertex_express" && |originalId| > 0 && !HasPrefix(originalId, "google/")
    then "google/" + originalId else originalId
  }

  /** The prefix is added at most once: rewriting an already rewritten id changes nothing. */
  lemma UpstreamModelIdOnce(providerType: string, originalId: string)
    ensures UpstreamModelId(providerType, UpstreamModelId(providerType, originalId)) ==
            UpstreamModelId(providerType, originalId)
    ensures providerType == "vertex_express" && originalId != "" && !HasPrefix(originalId, "google/") ==>
      UpstreamModelId(providerType, originalId) == "google/" + originalId
  {
    var id := UpstreamModelId(providerType, originalId);
    if providerType == "vertex_express" && |originalId| > 0 && !HasPrefix(originalId, "google/") {
      assert id[..7] == "google/";
    }
  }

  /** Index of the first `c` in `s`, or `|s|` when there is none. */
  function IndexOf(s: string, c: char): (i: int)
    ensures 0 <= i <= |s|
    ensures forall j :: 0 <= j < i ==> s[j] != c
    ensures i < |s| ==> s[i] == c
  {
    if s == [] then 0 else if s[0] == c then 0 else 1 + IndexOf(s[1..], c)
  }

  /** findModel's fallback name: what follows the first '/', if there is one. */
  function AfterFirstSlash(name: string): (r: Option<string>)
    ensures r.None? <==> '/' !in name
  {
    var i := IndexOf(name, '/');
    if i == |name| then None else Some(name[i + 1..])
  }

  /** The fallback removes exactly one leading segment and its slash. */
  lemma AfterFirstSlashSplits(name: string)
    requires '/' in name
    ensures var rest := AfterFirstSlash(name).value;
      var head := name[..|name| - |rest| - 1];
      name == head + "/" + rest && '/' !in head
  {
    var i := IndexOf(name, '/');
    assert name == name[..i] + "/" + name[i + 1..];
  }

  /** An active model row joined with its provider, as findModel's query returns it. */
  datatype ModelMatch = ModelMatch(modelId: int, originalId: string, displayName: string,
                                   providerId: int, modelActive: bool, providerActive: bool)

  predicate Usable(row: ModelMatch) {
    row.modelActive && row.providerActive
  }

  /** The first usable row whose display name (or original id) is `name`. */
  function FirstRow(rows: seq<ModelMatch>, name: string, byDisplayName: bool): (r: Option<ModelMatch>)
    ensures r.Some? ==> (r.value in rows && Usable(r.value) &&
                         (if byDisplayName then r.value.displayName else r.value.originalId) == name)
    ensures r.None? ==> forall i :: 0 <= i < |rows| && Usable(rows[i]) ==>
      (if byDisplayName then rows[i].displayName else rows[i].originalId) != name
    decreases |rows|
  {
    if rows == [] then None
    else if Usable(rows[0]) && (if byDisplayName then rows[0].displayName else rows[0].originalId) == name
    then Some(rows[0])
    else FirstRow(rows[1..], name, byDisplayName)
  }

  /**
   * findModel: by display name, then by original id, then by original id with
   * the first path segment removed.
   */
  function FindModel(rows: seq<ModelMatch>, name: string): (r: Option<ModelMatch>)
    ensures r.Some? ==> r.value in rows && Usable(r.value)
    ensures r.Some? ==> r.value.displayName == name || r.value.originalId == name ||
                        (AfterFirstSlash(name).Some? && r.value.originalId == AfterFirstSlash(name).value)
  {
    match FirstRow(rows, name, true)
    case Some(r) => Some(r)
    case None =>
      match FirstRow(rows, name, false)
      case Some(r) => Some(r)
      case None =>
        match AfterFirstSlash(name)
        case None => None
        case Some(rest) => FirstRow(rows, rest, false)
  }

  /**
   * The order of findModel's lookups: display names first, then original
   * ids; it fails only when no usable row answers in any of the three ways.
   */
  lemma FindModelResolves(rows: seq<ModelMatch>, name: string)
    ensures (exists i :: 0 <= i < |rows| && Usable(rows[i]) && rows[i].displayName == name) ==>
      FindModel(rows, name).Some? && FindModel(rows, name).value.displayName == name
    ensures FindModel(rows, name).None? ==>
      forall i :: 0 <= i < |rows| && Usable(rows[i]) ==> rows[i].displayName != name && rows[i].originalId != name
    ensures FindModel(rows, name).None? && AfterFirstSlash(name).Some? ==>
      forall i :: 0 <= i < |rows| && Usable(rows[i]) ==> rows[i].originalId != AfterFirstSlash(name).value
    ensures (forall i :: 0 <= i < |rows| && Usable(rows[i]) ==> rows[i].displayName != name) &&
            (exists i :: 0 <= i < |rows| && Usable(rows[i]) && rows[i].originalId == name) ==>
      FindModel(rows, name).Some? && FindModel(rows, name).value.originalId == name
  {
  }

  // ---------------------------------------------------------------------------
  // The request payload

  /** The message injectSystemPrompt puts first. */
  function SystemMessage(prompt: string): Json {
    Obj(map["role" := Str("system"), "content" := Str(prompt)])
  }

  /** Whether injectSystemPrompt rewrites the payload: enabled, a prompt, and a `messages` array. */
  predicate InjectionApplies(m: SettingsMap, payload: map<string, Json>) {
    ReadBool(m, SystemPromptEnabledKey) && SystemPromptKey in m && m[SystemPromptKey] != "" &&
    "messages" in payload && payload["messages"].Arr?
  }

  /**
   * The payload after injectSystemPrompt: exactly one system message put
   * first with the original messages in order after it; nothing else in the
   * payload changes.
   */
  function Injected(m: SettingsMap, payload: map<string, Json>): (after: map<string, Json>)
    ensures after.Keys == payload.Keys
    ensures forall k :: k in payload && k != "messages" ==> after[k] == payload[k]
    ensures InjectionApplies(m, payload) ==>
      after["messages"].Arr? &&
      |after["messages"].items| == |payload["messages"].items| + 1 &&
      after["messages"].items[0] == SystemMessage(m[SystemPromptKey]) &&
      after["messages"].items[1..] == payload["messages"].items
    ensures !InjectionApplies(m, payload) ==> after == payload
  {
    if InjectionApplies(m, payload)
    then payload["messages" := Arr([SystemMessage(m[SystemPromptKey])] + payload["messages"].items)]
    else payload
  }

  /** The effective stream flag: the request's own, unless the stream mode forces one. */
  function EffectiveStream(requested: bool, mode: string): (stream: bool)
    ensures mode == "force_stream" ==> stream
    ensures mode == "force_non_stream" ==> !stream
    ensures mode != "force_stream" && mode != "force_non_stream" ==> stream == requested
  {
    if mode == "force_stream" then true else if mode == "force_non_stream" then false else requested
  }

  /** The handler reads `stream_mode` directly (missing as ""); that decides the same as the reported "auto". */
  lemma StreamModeAsReported(m: SettingsMap, requested: bool)
    ensures EffectiveStream(requested, Get(m, StreamModeKey).GetOr("")) == EffectiveStream(requested, StreamMode(m))
  {
  }

  /** The request's `stream` field when it is a boolean, otherwise false. */
  function RequestedStream(payload: map<string, Json>): bool {
    "stream" in payload && payload["stream"].Bool? && payload["stream"].b
  }

  /** The payload after the override and the `stream_options` default. */
  function StreamPayload(payload: map<string, Json>, mode: string, stream: bool): map<string, Json> {
    var forced := if mode == "force_stream" || mode == "force_non_stream" then payload["stream" := Bool(stream)] else payload;
    if stream && "stream_options" !in forced
    then forced["stream_options" := Obj(map["include_usage" := Bool(true)])] else forced
  }

  /**
   * A forced mode is written into the payload; a streaming request always
   * carries `stream_options`, and an existing one is never replaced.
   */
  lemma StreamPayloadShape(payload: map<string, Json>, mode: string)
    ensures var stream := EffectiveStream(RequestedStream(payload), mode);
      var after := StreamPayload(payload, mode, stream);
      (mode == "force_stream" || mode == "force_non_stream" ==> after["stream"] == Bool(stream)) &&
      RequestedStream(after) == stream &&
      (stream ==> "stream_options" in after) &&
      ("stream_options" in payload ==> after["stream_options"] == payload["stream_options"]) &&
      (forall k :: k in payload && k != "stream" && k != "stream_options" ==> after[k] == payload[k])
  {
  }

  /** The JSON payload of one chat request, rewritten in place by the handler. */
  class ChatRequest {
    var payload: map<string, Json>
    var stream: bool

    /** The decoded body; `stream` starts as the request's own flag. */
    constructor (body: map<string, Json>)
      ensures payload == body && stream == RequestedStream(body)
    {
      payload := body;
      stream := RequestedStream(body);
    }

    /** The stream-mode override and the `stream_options` default. */
    method ApplyStreamMode(m: SettingsMap)
      modifies this
      ensures var mode := Get(m, StreamModeKey).GetOr("");
        stream == EffectiveStream(old(stream), mode) &&
        payload == StreamPayload(old(payload), mode, stream)
    {
      var mode := Get(m, StreamModeKey).GetOr("");
      if mode == "force_stream" {
        stream := true;
        payload := payload["stream" := Bool(true)];
      } else if mode == "force_non_stream" {
        stream := false;
        payload := payload["stream" := Bool(false)];
      }
      if stream && "stream_options" !in payload {
        payload := payload["stream_options" := Obj(map["include_usage" := Bool(true)])];
      }
    }

    /** injectSystemPrompt. */
    method InjectSystemPrompt(m: SettingsMap)
      modifies this
      ensures payload == Injected(m, old(payload))
      ensures stream == old(stream)
    {
      if !ReadBool(m, SystemPromptEnabledKey) {
        return;
      }
      var prompt := Get(m, SystemPromptKey);
      if prompt.None? || prompt.value == "" {
        return;
      }
      if "messages" !in payload || !payload["messages"].Arr? {
        return;
      }
      var messages := payload["messages"].items;
      payload := payload["messages" := Arr([SystemMessage(prompt.value)] + messages)];
    }
  }

  // ---------------------------------------------------------------------------
  // The fake stream

  /** The data of the event that ends a stream. */
  const DoneMarker := "[DONE]"

  /** One server-sent event carrying `data`. */
  function Frame(data: string): string {
    "data: " + data + "\n\n"
  }

  /**
   * buildFakeStreamResponse's body: the role chunk, the content chunk and the
   * finish chunk (their JSON encodings are inputs), then the `[DONE]` marker.
   * It is exactly those four events, provided the encoded chunks contain no
   * raw line break (JSON encoding escapes them).
   */
  function FakeStream(roleChunk: string, contentChunk: string, finishChunk: string): (body: string)
    ensures '\n' !in roleChunk && '\n' !in contentChunk && '\n' !in finishChunk ==>
      ParseFrames(body) == Some([roleChunk, contentChunk, finishChunk, DoneMarker])
  {
    var events := [roleChunk, contentChunk, finishChunk, DoneMarker];
    if '\n' !in roleChunk && '\n' !in contentChunk && '\n' !in finishChunk then
      FramesRoundTrip(events);
      Frames(events)
    else
      Frames(events)
  }

  /** Events written one after the other. */
  function Frames(events: seq<string>): string
    decreases |events|
  {
    if events == [] then "" else Frame(events[0]) + Frames(events[1..])
  }

  /** Splits a body into its `data: ...\n\n` events; None when it is not such a sequence. */
  function ParseFrames(s: string): Option<seq<string>>
    decreases |s|
  {
    if s == "" then Some([])
    else if !HasPrefix(s, "data: ") then None
    else
      var body := s[6..];
      var j := IndexOf(body, '\n');
      if j + 1 >= |body| || body[j + 1] != '\n' then None
      else match ParseFrames(body[j + 2..])
        case None => None
        case Some(rest) => Some([body[..j]] + rest)
  }

  /** A frame whose data has no line break parses back to that data. */
  lemma ParseFrame(data: string, tail: string)
    requires '\n' !in data
    ensures ParseFrames(tail).None? ==> ParseFrames(Frame(data) + tail).None?
    ensures ParseFrames(tail).Some? ==> ParseFrames(Frame(data) + tail) == Some([data] + ParseFrames(tail).value)
  {
    var s := Frame(data) + tail;
    var body := data + "\n\n" + tail;
    assert s == "data: " + body;
    assert s[..6] == "data: " && s[6..] == body;
    assert body == data + ("\n\n" + tail);
    IndexOfPrefix(data, "\n\n" + tail, '\n');
    assert body[|data| + 1] == '\n';
    assert body[..|data|] == data;
    assert body[|data| + 2..] == tail;
    assert s != "" && HasPrefix(s, "data: ");
    assert IndexOf(body, '\n') == |data|;
  }

  /** The first `c` of `a + b` is that of `b` when `a` has none. */
  lemma IndexOfPrefix(a: string, b: string, c: char)
    requires c !in a && |b| > 0 && b[0] == c
    ensures IndexOf(a + b, c) == |a|
  {
    assert (a + b)[|a|] == c;
    assert forall j :: 0 <= j < |a| ==> (a + b)[j] == a[j];
  }

  /** Events without line breaks parse back to themselves. */
  lemma {:induction false} FramesRoundTrip(events: seq<string>)
    requires forall i :: 0 <= i < |events| ==> '\n' !in events[i]
    ensures ParseFrames(Frames(events)) == Some(events)
    decreases |events|
  {
    if events == [] {
      assert Frames(events) == [];
    } else {
      FramesRoundTrip(events[1..]);
      ParseFrame(events[0], Frames(events[1..]));
      assert [events[0]] + events[1..] == events;
    }
  }
}
