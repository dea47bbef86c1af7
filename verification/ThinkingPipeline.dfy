/** The thinking-dependent steps of the stamp pipeline on Anthropic requests, with Claude
    Code stamping on. A body is its JSON object; steps rewrite fields in place. */
module ThinkingPipeline {
  import opened Wrappers

  datatype Json = Null | Bool(b: bool) | Num(n: real) | Str(s: string) | Arr(items: seq<Json>) | Obj(fields: map<string, Json>)

  type Fields = map<string, Json>

  const TOP_K := Num(20.0)
  const TEMPERATURE := Num(1.0)
  const CONTEXT_MANAGEMENT :=
    Obj(map["edits" := Arr([Obj(map["type" := Str("clear_thinking_20251015"), "keep" := Str("all")])])])

  /** The thinking shapes a policy or a rule can force. */
  datatype Shape = Adaptive | EnabledKeep(keep: string) | EnabledClear(clear: bool) | Enabled

  function ToJson(shape: Shape): Json {
    match shape
    case Adaptive => Obj(map["type" := Str("adaptive")])
    case EnabledKeep(keep) => Obj(map["type" := Str("enabled"), "keep" := Str(keep)])
    case EnabledClear(clear) => Obj(map["type" := Str("enabled"), "clear_thinking" := Bool(clear)])
    case Enabled => Obj(map["type" := Str("enabled")])
  }

  datatype Policy = Policy(
    maxTokens: real, effort: string, thinking: bool, topK: Option<real>, canDisableThinking: bool, thinkingShape: Shape)

  datatype Rule = Rule(anthropicThinkingShape: Option<Shape>, extraBody: Option<Fields>, forceThinkingWhenAbsent: bool)

  function Effort(policy: Policy): Json { Obj(map["effort" := Str(policy.effort)]) }

  /** A field read; absent and null are alike to `== null`. */
  function Read(b: Fields, k: string): Option<Json> { if k in b then Some(b[k]) else None }

  predicate IsNil(v: Option<Json>) { v.None? || v.value.Null? }

  // ------------------------------------------------------------ what counts as disabled

  function LowerChar(c: char): char { if 'A' <= c <= 'Z' then c + 32 as char else c }

  function Lower(s: string): string { seq(|s|, i requires 0 <= i < |s| => LowerChar(s[i])) }

  predicate IsDisabled(v: Option<Json>) {
    v.Some? && v.value.Obj? &&
    var t := v.value.fields;
    ( ("type" in t && t["type"].Str? && Lower(t["type"].s) in ["disabled", "off", "none"])
      || ("enabled" in t && t["enabled"] == Bool(false)))
  }

  predicate IsEnabled(v: Option<Json>) { !IsNil(v) && !IsDisabled(v) }

  /** Whether a value already has the given shape, judged by its discriminating fields. */
  predicate ThinkingEquals(v: Json, shape: Shape) {
    v.Obj? &&
    var a, b := v.fields, ToJson(shape).fields;
    Read(a, "type") == Some(b["type"]) &&
    (b["type"] == Str("enabled") ==>
       if "keep" in a && "keep" in b then a["keep"] == b["keep"]
       else if "clear_thinking" in a && "clear_thinking" in b then a["clear_thinking"] == b["clear_thinking"]
       else "keep" !in a && "keep" !in b && "clear_thinking" !in a && "clear_thinking" !in b)
  }

  // ------------------------------------------------------------ the steps

  function StampMaxTokens(b: Fields, policy: Policy): Fields {
    if IsEnabled(Read(b, "thinking")) then b["max_tokens" := Num(policy.maxTokens)] else b
  }

  function ForceThinking(b: Fields, policy: Policy): Fields {
    if !IsNil(Read(b, "thinking"))
       && (!IsDisabled(Read(b, "thinking")) || !policy.canDisableThinking)
       && !ThinkingEquals(b["thinking"], policy.thinkingShape)
    then b["thinking" := ToJson(policy.thinkingShape)] else b
  }

  function StampOutputConfig(b: Fields, policy: Policy): Fields {
    if IsEnabled(Read(b, "thinking")) && policy.thinking then b["output_config" := Effort(policy)] else b
  }

  function StampThinking(b: Fields, policy: Policy): Fields {
    StampOutputConfig(ForceThinking(StampMaxTokens(b, policy), policy), policy)
  }

  function AnthropicBody(b: Fields, policy: Policy): Fields {
    StampThinking(b, policy) - {"reasoning_effort"}
  }

  predicate RuleForces(b: Fields, policy: Policy, rule: Rule) {
    IsEnabled(Read(b, "thinking")) || !policy.canDisableThinking
    || (rule.forceThinkingWhenAbsent && IsNil(Read(b, "thinking")))
  }

  function RuleShape(b: Fields, policy: Policy, rule: Rule): Fields {
    if rule.anthropicThinkingShape.Some? && RuleForces(b, policy, rule) then
      var b1 := b["thinking" := ToJson(rule.anthropicThinkingShape.value)];
      if IsEnabled(Read(b, "thinking")) then b1
      else b1["max_tokens" := Num(policy.maxTokens)]["output_config" := Effort(policy)]
    else b
  }

  /** Extra keys are merged at the top level on both routes. */
  function PerModelRule(b: Fields, policy: Policy, rule: Option<Rule>): Fields {
    if rule.None? then b
    else
      var b1 := RuleShape(b, policy, rule.value);
      if rule.value.extraBody.Some? then b1 + rule.value.extraBody.value else b1
  }

  function ContextManagement(b: Fields): Fields {
    if IsEnabled(Read(b, "thinking")) then b["context_management" := CONTEXT_MANAGEMENT] else b
  }

  function TopK(b: Fields, policy: Policy): Fields {
    if policy.topK.Some? && IsEnabled(Read(b, "thinking")) && "model" in b && b["model"].Str? && "top_k" !in b
    then b["top_k" := TOP_K] else b
  }

  function Temperature(b: Fields): Fields {
    if IsEnabled(Read(b, "thinking")) then b["temperature" := TEMPERATURE] else b
  }

  function Pipeline(b: Fields, policy: Policy, rule: Option<Rule>): Fields {
    Temperature(TopK(ContextManagement(PerModelRule(AnthropicBody(b, policy), policy, rule)), policy))
  }

  /** A parsed body and the steps that rewrite it in place. */
  class RequestBody {
    var fields: Fields

    constructor (fields: Fields)
      ensures this.fields == fields
    {
      this.fields := fields;
    }

    method ApplyStampThinking(policy: Policy) returns (changed: bool)
      modifies this
      ensures fields == StampThinking(old(fields), policy)
      ensures fields != old(fields) ==> changed
    {
      changed := false;
      if IsEnabled(Read(fields, "thinking")) {
        fields := fields["max_tokens" := Num(policy.maxTokens)];
        changed := true;
      }
      if !IsNil(Read(fields, "thinking")) {
        var disabled := IsDisabled(Read(fields, "thinking"));
        var shouldForce := !disabled || !policy.canDisableThinking;
        if shouldForce && !ThinkingEquals(fields["thinking"], policy.thinkingShape) {
          fields := fields["thinking" := ToJson(policy.thinkingShape)];
          changed := true;
        }
      }
      if IsEnabled(Read(fields, "thinking")) && policy.thinking {
        fields := fields["output_config" := Effort(policy)];
        changed := true;
      }
    }

    method ApplyPerModelRule(policy: Policy, rule: Option<Rule>) returns (changed: bool)
      modifies this
      ensures fields == PerModelRule(old(fields), policy, rule)
      ensures fields != old(fields) ==> changed
      ensures changed <==> rule.Some? && ((RuleHasShape(rule) && RuleForces(old(fields), policy, rule.value)) || rule.value.extraBody.Some?)
    {
      changed := false;
      if rule.None? { return; }
      var existing := Read(fields, "thinking");
      if rule.value.anthropicThinkingShape.Some? && RuleForces(fields, policy, rule.value) {
        fields := fields["thinking" := ToJson(rule.value.anthropicThinkingShape.value)];
        if !IsEnabled(existing) {
          fields := fields["max_tokens" := Num(policy.maxTokens)];
          fields := fields["output_config" := Effort(policy)];
        }
        changed := true;
      }
      if rule.value.extraBody.Some? {
        fields := fields + rule.value.extraBody.value;
        changed := true;
      }
    }

    /** The steps in pipeline order. */
    method ApplyPipeline(policy: Policy, rule: Option<Rule>)
      modifies this
      ensures fields == Pipeline(old(fields), policy, rule)
    {
      var _ := ApplyStampThinking(policy);
      if "reasoning_effort" in fields { fields := fields - {"reasoning_effort"}; }
      assert fields == AnthropicBody(old(fields), policy);
      var _ := ApplyPerModelRule(policy, rule);
      if IsEnabled(Read(fields, "thinking")) { fields := fields["context_management" := CONTEXT_MANAGEMENT]; }
      fields := TopK(fields, policy);
      if IsEnabled(Read(fields, "thinking")) { fields := fields["temperature" := TEMPERATURE]; }
    }
  }

  // ------------------------------------------------------------ coherence

  const WATCHED: set<string> := {"thinking", "max_tokens", "output_config", "context_management", "top_k", "temperature"}

  /** The rule merges none of the fields the thinking steps own. */
  predicate ExtraIsForeign(rule: Option<Rule>) {
    rule.Some? && rule.value.extraBody.Some? ==>
      rule.value.extraBody.value.Keys !! WATCHED && "model" !in rule.value.extraBody.value
  }

  predicate RuleHasShape(rule: Option<Rule>) { rule.Some? && rule.value.anthropicThinkingShape.Some? }

  /** The client switched thinking off but the policy does not allow it, and the first step
      overwrites what was sent. It does not when the value carries the policy's own `type`
      next to `enabled: false`: the step takes it for the shape it wants. */
  predicate Overruled(b: Fields, policy: Policy) {
    var t := Read(b, "thinking");
    IsDisabled(t) && !policy.canDisableThinking && !ThinkingEquals(t.value, policy.thinkingShape)
  }

  /** The per-model rule switches thinking on after the first step left it off or absent. */
  predicate Revived(b: Fields, policy: Policy, rule: Option<Rule>) {
    var t := Read(b, "thinking");
    RuleHasShape(rule) && !IsEnabled(t) && !Overruled(b, policy)
    && (!policy.canDisableThinking || (rule.value.forceThinkingWhenAbsent && IsNil(t)))
  }

  /** The pipeline ends with thinking on, as a condition on what came in. */
  predicate EndsThinking(b: Fields, policy: Policy, rule: Option<Rule>) {
    IsEnabled(Read(b, "thinking")) || Overruled(b, policy) || Revived(b, policy, rule)
  }

  function WantedShape(policy: Policy, rule: Option<Rule>): Shape {
    if rule.Some? && rule.value.anthropicThinkingShape.Some? then rule.value.anthropicThinkingShape.value else policy.thinkingShape
  }

  lemma ShapeIsEnabled(shape: Shape)
    ensures IsEnabled(Some(ToJson(shape))) && ThinkingEquals(ToJson(shape), shape)
  {
    assert Lower("adaptive")[0] == 'a' && Lower("enabled")[0] == 'e';
    assert "disabled"[0] == 'd' && "off"[0] == 'o' && "none"[0] == 'n';
  }

  /** What the first step leaves behind, by what the client sent. */
  lemma AfterAnthropicBody(b: Fields, policy: Policy)
    ensures var r, t := AnthropicBody(b, policy), Read(b, "thinking");
            && (!IsEnabled(t) && !Overruled(b, policy) ==> forall k :: k in WATCHED ==> Read(r, k) == Read(b, k))
            && (IsEnabled(t) || Overruled(b, policy) ==>
                  && IsEnabled(Read(r, "thinking")) && ThinkingEquals(r["thinking"], policy.thinkingShape)
                  && Read(r, "max_tokens") == (if IsEnabled(t) then Some(Num(policy.maxTokens)) else Read(b, "max_tokens"))
                  && Read(r, "output_config") == (if policy.thinking then Some(Effort(policy)) else Read(b, "output_config"))
                  && Read(r, "top_k") == Read(b, "top_k"))
            && Read(r, "model") == Read(b, "model")
  {
    ShapeIsEnabled(policy.thinkingShape);
    var b1 := StampMaxTokens(b, policy);
    assert Read(b1, "thinking") == Read(b, "thinking");
    var b2 := ForceThinking(b1, policy);
    assert Read(b2, "max_tokens") == Read(b1, "max_tokens") && Read(b2, "output_config") == Read(b1, "output_config");
  }

  lemma AfterRule(b: Fields, policy: Policy, rule: Option<Rule>)
    requires ExtraIsForeign(rule)
    ensures var r, t := PerModelRule(b, policy, rule), Read(b, "thinking");
            var forced := RuleHasShape(rule) && RuleForces(b, policy, rule.value);
            && Read(r, "thinking") == (if forced then Some(ToJson(rule.value.anthropicThinkingShape.value)) else t)
            && Read(r, "max_tokens") == (if forced && !IsEnabled(t) then Some(Num(policy.maxTokens)) else Read(b, "max_tokens"))
            && Read(r, "output_config") == (if forced && !IsEnabled(t) then Some(Effort(policy)) else Read(b, "output_config"))
            && Read(r, "top_k") == Read(b, "top_k") && Read(r, "model") == Read(b, "model")
            && Read(r, "context_management") == Read(b, "context_management")
            && Read(r, "temperature") == Read(b, "temperature")
  {
  }

  lemma AfterTail(b: Fields, policy: Policy)
    ensures var r := Temperature(TopK(ContextManagement(b), policy));
            && (forall k :: k in {"thinking", "max_tokens", "output_config"} ==> Read(r, k) == Read(b, k))
            && (IsEnabled(Read(b, "thinking")) ==>
                  && Read(r, "context_management") == Some(CONTEXT_MANAGEMENT)
                  && Read(r, "temperature") == Some(TEMPERATURE)
                  && Read(r, "top_k") == (if policy.topK.Some? && "top_k" !in b && "model" in b && b["model"].Str?
                                          then Some(TOP_K) else Read(b, "top_k")))
            && (!IsEnabled(Read(b, "thinking")) ==> r == b)
  {
    var b1 := ContextManagement(b);
    assert Read(b1, "thinking") == Read(b, "thinking");
    var b2 := TopK(b1, policy);
    assert Read(b2, "thinking") == Read(b, "thinking");
  }

  /** Thinking coherence. Either the request leaves with thinking on, in the wanted shape,
      with context management and temperature stamped, top_k filled in where it was missing,
      output_config stamped unless the policy itself has no thinking, and max_tokens stamped
      unless the client's switch-off was overruled; or all six fields leave as they came. */
  lemma ThinkingCoherence(b: Fields, policy: Policy, rule: Option<Rule>)
    requires ExtraIsForeign(rule)
    ensures var r := Pipeline(b, policy, rule);
            && (IsEnabled(Read(r, "thinking")) <==> EndsThinking(b, policy, rule))
            && (EndsThinking(b, policy, rule) ==>
                  && ThinkingEquals(r["thinking"], WantedShape(policy, rule))
                  && Read(r, "context_management") == Some(CONTEXT_MANAGEMENT)
                  && Read(r, "temperature") == Some(TEMPERATURE)
                  && Read(r, "output_config") ==
                       (if policy.thinking || Revived(b, policy, rule) then Some(Effort(policy)) else Read(b, "output_config"))
                  && Read(r, "max_tokens") ==
                       (if Overruled(b, policy) then Read(b, "max_tokens") else Some(Num(policy.maxTokens)))
                  && Read(r, "top_k") ==
                       (if policy.topK.Some? && "top_k" !in b && "model" in b && b["model"].Str? then Some(TOP_K) else Read(b, "top_k")))
            && (!EndsThinking(b, policy, rule) ==> forall k :: k in WATCHED ==> Read(r, k) == Read(b, k))
  {
    var b1 := AnthropicBody(b, policy);
    AfterAnthropicBody(b, policy);
    var b2 := PerModelRule(b1, policy, rule);
    AfterRule(b1, policy, rule);
    AfterTail(b2, policy);
    assert Pipeline(b, policy, rule) == Temperature(TopK(ContextManagement(b2), policy));
    if RuleHasShape(rule) { ShapeIsEnabled(rule.value.anthropicThinkingShape.value); }
    ShapeIsEnabled(policy.thinkingShape);
    if !IsEnabled(Read(b, "thinking")) && !Overruled(b, policy) {
      assert "thinking" in WATCHED;
      assert Read(b1, "thinking") == Read(b, "thinking");
    }
  }

  /** A client that switches thinking off, where the policy allows it, is left alone. */
  lemma DisabledThinkingIsRespected(b: Fields, policy: Policy, rule: Option<Rule>)
    requires ExtraIsForeign(rule) && IsDisabled(Read(b, "thinking")) && policy.canDisableThinking
    ensures forall k :: k in WATCHED ==> Read(Pipeline(b, policy, rule), k) == Read(b, k)
  {
    ThinkingCoherence(b, policy, rule);
  }

  /** Every other field passes through, except the deleted reasoning_effort and what the rule
      merges in. */
  lemma OtherFieldsPass(b: Fields, policy: Policy, rule: Option<Rule>, k: string)
    requires k !in WATCHED && k != "reasoning_effort"
    requires rule.Some? && rule.value.extraBody.Some? ==> k !in rule.value.extraBody.value
    ensures Read(Pipeline(b, policy, rule), k) == Read(b, k)
  {
    var b1 := AnthropicBody(b, policy);
    assert Read(b1, k) == Read(b, k);
    var b2 := PerModelRule(b1, policy, rule);
    assert Read(b2, k) == Read(b1, k);
  }

  /** What the rule merges in is what leaves, whatever the client sent under that key. */
  lemma ExtraReachesTheWire(b: Fields, policy: Policy, rule: Rule, k: string)
    requires ExtraIsForeign(Some(rule)) && rule.extraBody.Some? && k in rule.extraBody.value
    ensures Read(Pipeline(b, policy, Some(rule)), k) == Some(rule.extraBody.value[k])
  {
    assert k !in WATCHED;
    var b2 := PerModelRule(AnthropicBody(b, policy), policy, Some(rule));
    assert Read(b2, k) == Some(rule.extraBody.value[k]);
  }

  // ------------------------------------------------------------ where forcing falls short

  const KIMI := Policy(32767.0, "high", true, None, false, Adaptive)

  /** A model whose thinking cannot be disabled still leaves with it off when the client sends
      the policy's own type with `enabled: false`. */
  lemma SwitchOffSlipsThrough()
    ensures var b := map["thinking" := Obj(map["type" := Str("adaptive"), "enabled" := Bool(false)])];
            !KIMI.canDisableThinking && !IsEnabled(Read(Pipeline(b, KIMI, None), "thinking"))
  {
    var b := map["thinking" := Obj(map["type" := Str("adaptive"), "enabled" := Bool(false)])];
    ThinkingCoherence(b, KIMI, None);
  }

  /** When a switch-off is overruled, the client's max_tokens stays beside forced thinking. */
  lemma OverruledKeepsMaxTokens()
    ensures var b := map["thinking" := Obj(map["type" := Str("disabled")]), "max_tokens" := Num(5.0)];
            var r := Pipeline(b, KIMI, None);
            IsEnabled(Read(r, "thinking")) && Read(r, "max_tokens") == Some(Num(5.0))
  {
    var b := map["thinking" := Obj(map["type" := Str("disabled")]), "max_tokens" := Num(5.0)];
    assert Lower("disabled") == "disabled";
    ThinkingCoherence(b, KIMI, None);
  }

  // ------------------------------------------------------------ what the words mean

  /** `s` spells the lower-case word `w` in letters of either case. */
  predicate Spells(s: string, w: string) {
    |s| == |w| && forall n :: 0 <= n < |s| ==> s[n] == w[n] || ('A' <= s[n] <= 'Z' && s[n] as int + 32 == w[n] as int)
  }

  predicate LowerCase(w: string) {
    forall n :: 0 <= n < |w| ==> 'a' <= w[n] <= 'z'
  }

  lemma LowerSpells(s: string, w: string)
    requires LowerCase(w)
    ensures Lower(s) == w <==> Spells(s, w)
  {
    if Spells(s, w) {
      assert forall n :: 0 <= n < |s| ==> Lower(s)[n] == w[n];
    }
    if Lower(s) == w {
      forall n | 0 <= n < |s| ensures s[n] == w[n] || ('A' <= s[n] <= 'Z' && s[n] as int + 32 == w[n] as int) {
        assert Lower(s)[n] == w[n];
      }
    }
  }

  /** Exactly which thinking values count as switched off: objects whose `type` spells disabled,
      off or none in any case, or whose `enabled` is false. */
  lemma DisabledIff(v: Option<Json>)
    ensures IsDisabled(v) <==>
            && v.Some? && v.value.Obj?
            && ( (exists s :: Read(v.value.fields, "type") == Some(Str(s)) && (Spells(s, "disabled") || Spells(s, "off") || Spells(s, "none")))
                 || Read(v.value.fields, "enabled") == Some(Bool(false)))
  {
    if v.Some? && v.value.Obj? && "type" in v.value.fields && v.value.fields["type"].Str? {
      var s := v.value.fields["type"].s;
      LowerSpells(s, "disabled");
      LowerSpells(s, "off");
      LowerSpells(s, "none");
    }
  }

  lemma UpperCaseOffCounts()
    ensures IsDisabled(Some(Obj(map["type" := Str("OFF")]))) && IsDisabled(Some(Obj(map["type" := Str("None")])))
    ensures !IsDisabled(Some(Obj(map["type" := Str("offset")]))) && !IsDisabled(Some(Str("off"))) && !IsDisabled(None)
  {
    assert Spells("OFF", "off") && Spells("None", "none");
    LowerSpells("OFF", "off");
    LowerSpells("None", "none");
    DisabledIff(Some(Obj(map["type" := Str("offset")])));
  }

  /** Exactly when a value is taken for a wanted shape, shape by shape. */
  lemma TakenForShapeIff(v: Json)
    ensures v.Obj? ==>
      var type', keep, clear := Read(v.fields, "type"), Read(v.fields, "keep"), Read(v.fields, "clear_thinking");
      && (ThinkingEquals(v, Adaptive) <==> type' == Some(Str("adaptive")))
      && (ThinkingEquals(v, Enabled) <==> type' == Some(Str("enabled")) && keep.None? && clear.None?)
      && (forall k :: ThinkingEquals(v, EnabledKeep(k)) <==> type' == Some(Str("enabled")) && keep == Some(Str(k)))
      && (forall c :: ThinkingEquals(v, EnabledClear(c)) <==> type' == Some(Str("enabled")) && clear == Some(Bool(c)))
    ensures !v.Obj? ==> forall shape :: !ThinkingEquals(v, shape)
  {
  }

  const GLM := Policy(131071.0, "max", true, Some(20.0), true, Adaptive)

  const REQUEST: Fields := map[
    "model" := Str("umans-glm-5.2"), "thinking" := Obj(map["type" := Str("enabled")]),
    "max_tokens" := Num(5.0), "reasoning_effort" := Str("low"), "temperature" := Num(0.2)]

  const STAMPED: Fields := map[
    "model" := Str("umans-glm-5.2"), "thinking" := Obj(map["type" := Str("adaptive")]),
    "max_tokens" := Num(131071.0), "temperature" := Num(0.2), "output_config" := Obj(map["effort" := Str("max")])]

  lemma GlmBody()
    ensures AnthropicBody(REQUEST, GLM) == STAMPED
  {
    ShapeIsEnabled(Enabled);
    ShapeIsEnabled(Adaptive);
    var b1 := StampMaxTokens(REQUEST, GLM);
    assert b1 == REQUEST["max_tokens" := Num(131071.0)];
    var b2 := ForceThinking(b1, GLM);
    assert b2 == b1["thinking" := Obj(map["type" := Str("adaptive")])];
    assert StampThinking(REQUEST, GLM) == b2["output_config" := Obj(map["effort" := Str("max")])];
  }

  lemma GlmTail()
    ensures Temperature(TopK(ContextManagement(STAMPED), GLM)) ==
            STAMPED["context_management" := CONTEXT_MANAGEMENT]["top_k" := Num(20.0)]["temperature" := Num(1.0)]
  {
    ShapeIsEnabled(Adaptive);
    var b := STAMPED["context_management" := CONTEXT_MANAGEMENT];
    assert ContextManagement(STAMPED) == b;
    assert TopK(b, GLM) == b["top_k" := Num(20.0)];
  }

  /** Requests through the pipeline, value by value: whatever arrives as STAMPED, REQUEST for
      one (GlmBody), leaves like this. */
  lemma GlmRequest(b: Fields)
    requires AnthropicBody(b, GLM) == STAMPED
    ensures Pipeline(b, GLM, None) == map[
      "model" := Str("umans-glm-5.2"), "thinking" := Obj(map["type" := Str("adaptive")]),
      "max_tokens" := Num(131071.0), "output_config" := Obj(map["effort" := Str("max")]),
      "context_management" := Obj(map["edits" := Arr([Obj(map["type" := Str("clear_thinking_20251015"), "keep" := Str("all")])])]),
      "top_k" := Num(20.0), "temperature" := Num(1.0)]
  {
    GlmTail();
    assert PerModelRule(STAMPED, GLM, None) == STAMPED;
  }
}
