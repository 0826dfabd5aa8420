/**
 * The `settings` key/value table and the admin handlers that read and write
 * it (backend/internal/handlers/settings.go). The table is a map from key to
 * the stored string; a missing key is what the Go code sees as a failed
 * QueryRow/Scan. JSON-encoded rule lists go through an abstract encoder and
 * decoder passed in as functions.
 */
module Settings {
  import opened Wrappers
  import opened Text

  type SettingsMap = map<string, string>

  const StreamModeKey := "stream_mode"
  const MaxRetriesKey := "max_retries"
  const ThemeKey := "theme"
  const SystemPromptKey := "system_prompt"
  const SystemPromptEnabledKey := "system_prompt_enabled"
  const CustomErrorEnabledKey := "custom_error_enabled"
  const CustomErrorRulesKey := "custom_error_rules"
  const RateLimitEnabledKey := "rate_limit_enabled"
  const RateLimitMaxKey := "rate_limit_max_requests"
  const RateLimitWindowKey := "rate_limit_window"
  const ConcurrencyEnabledKey := "concurrency_enabled"
  const ConcurrencyLimitKey := "concurrency_limit"
  const CustomRateLimitRulesKey := "custom_rate_limit_rules"

  /** A keyword → canned-response rule (models.CustomErrorRule). */
  datatype CustomErrorRule = CustomErrorRule(keyword: string, response: string)

  /** A per-provider / per-model rate-limit rule (CustomRateLimitRule in openai.go). */
  datatype CustomRateLimitRule = CustomRateLimitRule(
    id: int, name: string, providerId: int, providerName: string,
    modelName: string, maxRequests: int, window: int, enabled: bool)

  /** Booleans are stored as the strings "true"/"false"... */
  function BoolString(b: bool): string {
    if b then "true" else "false"
  }

  /** ...and read back as `value == "true"`; a missing key reads as false. */
  function ReadBool(m: SettingsMap, key: string): bool {
    key in m && m[key] == "true"
  }

  lemma BoolRoundTrip(m: SettingsMap, key: string, b: bool)
    ensures ReadBool(m[key := BoolString(b)], key) == b
  {
  }

  predicate ValidStreamMode(mode: string) {
    mode == "auto" || mode == "force_stream" || mode == "force_non_stream"
  }

  predicate ValidTheme(theme: string) {
    theme == "light" || theme == "dark" || theme == "auto"
  }

  /** GetStreamMode: the stored mode, "auto" when there is none. */
  function StreamMode(m: SettingsMap): (mode: string)
    ensures StreamModeKey !in m ==> mode == "auto"
    ensures StreamModeKey in m ==> mode == m[StreamModeKey]
  {
    Get(m, StreamModeKey).GetOr("auto")
  }

  /** GetRetrySettings: "3" when missing, otherwise the stored value parsed (0 if unparsable). */
  function RetrySettings(m: SettingsMap): (retries: int)
    ensures MaxRetriesKey !in m ==> retries == 3
    ensures MaxRetriesKey in m && Atoi(m[MaxRetriesKey]).None? ==> retries == 0
    ensures MaxRetriesKey in m && Atoi(m[MaxRetriesKey]).Some? ==> retries == Atoi(m[MaxRetriesKey]).value
  {
    AtoiOrZero(Get(m, MaxRetriesKey).GetOr("3"))
  }

  /** GetThemeSettings: the stored theme, "light" when there is none. */
  function ThemeSetting(m: SettingsMap): (theme: string)
    ensures ThemeKey !in m ==> theme == "light"
    ensures ThemeKey in m ==> theme == m[ThemeKey]
  {
    Get(m, ThemeKey).GetOr("light")
  }

  datatype SystemPromptView = SystemPromptView(prompt: string, enabled: bool)

  /** GetSystemPrompt: the prompt ("" when missing) and whether it is enabled. */
  function SystemPrompt(m: SettingsMap): (v: SystemPromptView)
    ensures v.enabled <==> SystemPromptEnabledKey in m && m[SystemPromptEnabledKey] == "true"
    ensures v.prompt == if SystemPromptKey in m then m[SystemPromptKey] else ""
  {
    SystemPromptView(Get(m, SystemPromptKey).GetOr(""), ReadBool(m, SystemPromptEnabledKey))
  }

  datatype CustomErrorView = CustomErrorView(enabled: bool, rules: seq<CustomErrorRule>)

  /** GetCustomErrorResponse: the flag and the decoded rules ("[]" when missing). */
  function CustomErrorResponse(m: SettingsMap, decode: string -> seq<CustomErrorRule>): (v: CustomErrorView)
    ensures v.enabled == ReadBool(m, CustomErrorEnabledKey)
    ensures CustomErrorRulesKey !in m ==> v.rules == decode("[]")
    ensures CustomErrorRulesKey in m ==> v.rules == decode(m[CustomErrorRulesKey])
  {
    CustomErrorView(ReadBool(m, CustomErrorEnabledKey), decode(Get(m, CustomErrorRulesKey).GetOr("[]")))
  }

  /** A positive number, or the fallback for zero, negatives and unparsable text. */
  function PositiveOr(n: int, fallback: int): (r: int)
    ensures n > 0 ==> r == n
    ensures n <= 0 ==> r == fallback
  {
    if n <= 0 then fallback else n
  }

  datatype RateLimitView = RateLimitView(enabled: bool, maxRequests: int, window: int)

  /** GetRateLimitSettings: 60 for a non-positive, missing or unparsable max or window. */
  function RateLimitSettings(m: SettingsMap): (v: RateLimitView)
    ensures v.enabled == ReadBool(m, RateLimitEnabledKey)
    ensures v.maxRequests > 0 && v.window > 0
    ensures RateLimitMaxKey !in m ==> v.maxRequests == 60
    ensures RateLimitMaxKey in m && AtoiOrZero(m[RateLimitMaxKey]) > 0 ==> v.maxRequests == AtoiOrZero(m[RateLimitMaxKey])
    ensures RateLimitMaxKey in m && AtoiOrZero(m[RateLimitMaxKey]) <= 0 ==> v.maxRequests == 60
    ensures RateLimitWindowKey !in m ==> v.window == 60
    ensures RateLimitWindowKey in m && AtoiOrZero(m[RateLimitWindowKey]) > 0 ==> v.window == AtoiOrZero(m[RateLimitWindowKey])
    ensures RateLimitWindowKey in m && AtoiOrZero(m[RateLimitWindowKey]) <= 0 ==> v.window == 60
  {
    RateLimitView(
      ReadBool(m, RateLimitEnabledKey),
      PositiveOr(AtoiOrZero(Get(m, RateLimitMaxKey).GetOr("")), 60),
      PositiveOr(AtoiOrZero(Get(m, RateLimitWindowKey).GetOr("")), 60))
  }

  datatype ConcurrencyView = ConcurrencyView(enabled: bool, limit: int, current: int)

  /** GetConcurrencySettings: a non-positive limit is reported as 10. */
  function ConcurrencySettings(m: SettingsMap, current: int): (v: ConcurrencyView)
    ensures v.enabled == ReadBool(m, ConcurrencyEnabledKey)
    ensures v.limit > 0
    ensures ConcurrencyLimitKey !in m ==> v.limit == 10
    ensures ConcurrencyLimitKey in m && AtoiOrZero(m[ConcurrencyLimitKey]) > 0 ==> v.limit == AtoiOrZero(m[ConcurrencyLimitKey])
    ensures ConcurrencyLimitKey in m && AtoiOrZero(m[ConcurrencyLimitKey]) <= 0 ==> v.limit == 10
    ensures v.current == current
  {
    ConcurrencyView(
      ReadBool(m, ConcurrencyEnabledKey),
      PositiveOr(AtoiOrZero(Get(m, ConcurrencyLimitKey).GetOr("")), 10),
      current)
  }

  /** The provider_name enrichment of GetCustomRateLimitRules for one rule. */
  function WithProviderName(rule: CustomRateLimitRule, names: map<int, string>): CustomRateLimitRule {
    if rule.providerId > 0 then
      rule.(providerName := if rule.providerId in names then names[rule.providerId] else "")
    else rule
  }

  /**
   * GetCustomRateLimitRules: an empty list when the key is missing or empty,
   * otherwise the decoded rules with provider names filled in for rules bound
   * to a provider (an unknown provider gives the empty name).
   */
  function CustomRateLimitRules(m: SettingsMap, decode: string -> seq<CustomRateLimitRule>,
                                names: map<int, string>): (rules: seq<CustomRateLimitRule>)
    ensures CustomRateLimitRulesKey !in m || m[CustomRateLimitRulesKey] == "" ==> rules == []
    ensures CustomRateLimitRulesKey in m && m[CustomRateLimitRulesKey] != "" ==>
      |rules| == |decode(m[CustomRateLimitRulesKey])| &&
      forall i :: 0 <= i < |rules| ==>
        var r := decode(m[CustomRateLimitRulesKey])[i];
        rules[i].providerName == (if r.providerId <= 0 then r.providerName
                                  else if r.providerId in names then names[r.providerId] else "") &&
        rules[i] == r.(providerName := rules[i].providerName)
  {
    var raw := Get(m, CustomRateLimitRulesKey).GetOr("");
    if raw == "" then [] else
      var decoded := decode(raw);
      seq(|decoded|, i requires 0 <= i < |decoded| => WithProviderName(decoded[i], names))
  }

  /** The rate-limit triple written by SetRateLimitSettings. */
  function WriteRateLimit(m: SettingsMap, enabled: bool, maxRequests: int, window: int): SettingsMap {
    m[RateLimitEnabledKey := BoolString(enabled)]
     [RateLimitMaxKey := Itoa(maxRequests)]
     [RateLimitWindowKey := Itoa(window)]
  }

  /** What SetRateLimitSettings writes, GetRateLimitSettings reads back (with the 60 defaults). */
  lemma RateLimitRoundTrip(m: SettingsMap, enabled: bool, maxRequests: int, window: int)
    ensures RateLimitSettings(WriteRateLimit(m, enabled, maxRequests, window)) ==
      RateLimitView(enabled, PositiveOr(maxRequests, 60), PositiveOr(window, 60))
  {
    AtoiItoa(maxRequests);
    AtoiItoa(window);
  }

  /** The concurrency pair written by SetConcurrencySettings. */
  function WriteConcurrency(m: SettingsMap, enabled: bool, limit: int): SettingsMap {
    m[ConcurrencyEnabledKey := BoolString(enabled)][ConcurrencyLimitKey := Itoa(limit)]
  }

  lemma ConcurrencyRoundTrip(m: SettingsMap, enabled: bool, limit: int, current: int)
    ensures ConcurrencySettings(WriteConcurrency(m, enabled, limit), current) ==
      ConcurrencyView(enabled, PositiveOr(limit, 10), current)
  {
    AtoiItoa(limit);
  }

  /** A retry count accepted by SetRetrySettings is read back unchanged. */
  lemma RetryRoundTrip(m: SettingsMap, n: int)
    requires 0 <= n <= 10
    ensures RetrySettings(m[MaxRetriesKey := Itoa(n)]) == n
  {
    AtoiItoa(n);
  }

  /** The settings table and its write handlers. */
  class SettingsTable {
    var values: SettingsMap

    constructor (initial: SettingsMap)
      ensures values == initial
    {
      values := initial;
    }

    /**
     * SetStreamMode: an unparsable body (None) or a mode outside the three
     * accepted ones gives 400 and writes nothing.
     */
    method SetStreamMode(req: Option<string>) returns (status: int)
      modifies this
      ensures status == 200 <==> req.Some? && ValidStreamMode(req.value)
      ensures status != 200 ==> status == 400 && values == old(values)
      ensures status == 200 ==> values == old(values)[StreamModeKey := req.value]
    {
      if req.None? || req.value == "" {
        return 400;
      }
      if !ValidStreamMode(req.value) {
        return 400;
      }
      values := values[StreamModeKey := req.value];
      status := 200;
    }

    /** SetRetrySettings: only 0..10 inclusive is written. */
    method SetRetrySettings(req: Option<int>) returns (status: int)
      modifies this
      ensures status == 200 <==> req.Some? && 0 <= req.value <= 10
      ensures status != 200 ==> status == 400 && values == old(values)
      ensures status == 200 ==> values == old(values)[MaxRetriesKey := Itoa(req.value)]
    {
      if req.None? {
        return 400;
      }
      if req.value < 0 || req.value > 10 {
        return 400;
      }
      values := values[MaxRetriesKey := Itoa(req.value)];
      status := 200;
    }

    /** SetThemeSettings: only light, dark and auto are written. */
    method SetThemeSettings(req: Option<string>) returns (status: int)
      modifies this
      ensures status == 200 <==> req.Some? && ValidTheme(req.value)
      ensures status != 200 ==> status == 400 && values == old(values)
      ensures status == 200 ==> values == old(values)[ThemeKey := req.value]
    {
      if req.None? || req.value == "" {
        return 400;
      }
      if !ValidTheme(req.value) {
        return 400;
      }
      values := values[ThemeKey := req.value];
      status := 200;
    }

    /** SetSystemPrompt: writes the prompt and the flag, without validation. */
    method SetSystemPrompt(req: Option<SystemPromptView>) returns (status: int)
      modifies this
      ensures status == 200 <==> req.Some?
      ensures status != 200 ==> status == 400 && values == old(values)
      ensures status == 200 ==> values == old(values)[SystemPromptKey := req.value.prompt]
                                                    [SystemPromptEnabledKey := BoolString(req.value.enabled)]
    {
      if req.None? {
        return 400;
      }
      values := values[SystemPromptKey := req.value.prompt];
      values := values[SystemPromptEnabledKey := BoolString(req.value.enabled)];
      status := 200;
    }

    /** SetCustomErrorResponse: writes the flag and the encoded rules. */
    method SetCustomErrorResponse(req: Option<CustomErrorView>, encode: seq<CustomErrorRule> -> string)
      returns (status: int)
      modifies this
      ensures status == 200 <==> req.Some?
      ensures status != 200 ==> status == 400 && values == old(values)
      ensures status == 200 ==> values == old(values)[CustomErrorEnabledKey := BoolString(req.value.enabled)]
                                                    [CustomErrorRulesKey := encode(req.value.rules)]
    {
      if req.None? {
        return 400;
      }
      values := values[CustomErrorEnabledKey := BoolString(req.value.enabled)];
      values := values[CustomErrorRulesKey := encode(req.value.rules)];
      status := 200;
    }

    /** SetRateLimitSettings: writes all three values; no range check. */
    method SetRateLimitSettings(req: Option<RateLimitView>) returns (status: int)
      modifies this
      ensures status == 200 <==> req.Some?
      ensures status != 200 ==> status == 400 && values == old(values)
      ensures status == 200 ==> values == WriteRateLimit(old(values), req.value.enabled, req.value.maxRequests, req.value.window)
    {
      if req.None? {
        return 400;
      }
      values := values[RateLimitEnabledKey := BoolString(req.value.enabled)];
      values := values[RateLimitMaxKey := Itoa(req.value.maxRequests)];
      values := values[RateLimitWindowKey := Itoa(req.value.window)];
      status := 200;
    }

    /** SetConcurrencySettings: writes the flag and the limit; no range check. */
    method SetConcurrencySettings(req: Option<(bool, int)>) returns (status: int)
      modifies this
      ensures status == 200 <==> req.Some?
      ensures status != 200 ==> status == 400 && values == old(values)
      ensures status == 200 ==> values == WriteConcurrency(old(values), req.value.0, req.value.1)
    {
      if req.None? {
        return 400;
      }
      values := values[ConcurrencyEnabledKey := BoolString(req.value.0)];
      values := values[ConcurrencyLimitKey := Itoa(req.value.1)];
      status := 200;
    }

    /** SetCustomRateLimitRules: stores the encoded rule list. */
    method SetCustomRateLimitRules(req: Option<seq<CustomRateLimitRule>>, encode: seq<CustomRateLimitRule> -> string)
      returns (status: int)
      modifies this
      ensures status == 200 <==> req.Some?
      ensures status != 200 ==> status == 400 && values == old(values)
      ensures status == 200 ==> values == old(values)[CustomRateLimitRulesKey := encode(req.value)]
    {
      if req.None? {
        return 400;
      }
      values := values[CustomRateLimitRulesKey := encode(req.value)];
      status := 200;
    }
  }
}
