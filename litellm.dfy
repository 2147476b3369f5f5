/**
 * The LiteLLM provider (nanobot/providers/litellm_provider.py): provider detection, the
 * API-key environment slot, the model-name prefix chain and the parsing of a completion.
 *
 * `os.environ` and the `litellm` module globals are the fields of an `Environment`; the
 * completion call `acompletion` is the oracle `complete`, answering the n-th call with a raw
 * response or the text of the exception it raised; `json.loads` is the oracle `decode`, with
 * None for a `JSONDecodeError`.
 */
module LiteLLM {
  import opened Wrappers
  import opened Strings
  import opened Llm
  import opened Tools
  import opened Turns

  const DefaultModel: string := "anthropic/claude-opus-4-5"
  const DefaultMaxTokens: int := 4096
  const FailurePrefix: string := "调用 LLM 失败: "
  /** `str(e)` of the IndexError `response.choices[0]` raises on an empty choice list. */
  const NoChoiceError: string := "list index out of range"

  /** Python truthiness of an optional string: present and non-empty. */
  predicate Present(s: Option<string>) {
    s.Some? && s.value != ""
  }

  /** `is_openrouter`: an OpenRouter key prefix, or an OpenRouter base URL. */
  predicate IsOpenRouter(apiKey: Option<string>, apiBase: Option<string>) {
    (apiKey.Some? && StartsWith(apiKey.value, "sk-or-")) || (apiBase.Some? && Contains(apiBase.value, "openrouter"))
  }

  /** `is_vllm`: any other custom base URL. */
  predicate IsVllm(apiKey: Option<string>, apiBase: Option<string>) {
    Present(apiBase) && !IsOpenRouter(apiKey, apiBase)
  }

  /** The two detections never both hold, and a custom base URL always selects one of them. */
  lemma ProviderKinds(apiKey: Option<string>, apiBase: Option<string>)
    ensures !(IsOpenRouter(apiKey, apiBase) && IsVllm(apiKey, apiBase))
    ensures Present(apiBase) ==> IsOpenRouter(apiKey, apiBase) || IsVllm(apiKey, apiBase)
    ensures !Present(apiBase) ==> (IsOpenRouter(apiKey, apiBase) <==> apiKey.Some? && StartsWith(apiKey.value, "sk-or-"))
  {
    if apiBase.Some? && apiBase.value == "" {
      MissingChar("", "openrouter", 'o');
    }
  }

  /** Which environment variable receives the key, and whether an existing value is overwritten. */
  datatype EnvWrite = EnvWrite(name: string, overwrite: bool)

  /**
   * One vendor test of `__init__`: the names looked for in the default model (in the
   * lower-cased model when `caseless`), and the variable that receives the key on a match.
   */
  datatype VendorRule = VendorRule(needles: seq<string>, caseless: bool, variable: string)

  /** The vendor tests in the order `__init__` tries them. */
  const VendorRules: seq<VendorRule> := [
    VendorRule(["anthropic"], false, "ANTHROPIC_API_KEY"),
    VendorRule(["openai", "gpt"], false, "OPENAI_API_KEY"),
    VendorRule(["gemini"], true, "GEMINI_API_KEY"),
    VendorRule(["zhipu", "glm", "zai"], false, "ZHIPUAI_API_KEY"),
    VendorRule(["groq"], false, "GROQ_API_KEY")]

  predicate Matches(rule: VendorRule, model: string) {
    exists j | 0 <= j < |rule.needles| :: Contains(Searched(rule, model), rule.needles[j])
  }

  /** The variable of the first rule, from index `i` on, that matches `model`. */
  function FirstMatch(rules: seq<VendorRule>, model: string, i: nat): Option<string>
    decreases |rules| - i
  {
    if i >= |rules| then None
    else if Matches(rules[i], model) then Some(rules[i].variable)
    else FirstMatch(rules, model, i + 1)
  }

  /** `FirstMatch` finds nothing exactly when no rule matches, and otherwise the variable of the earliest rule that does. */
  lemma {:induction false} FirstMatchIsFirst(rules: seq<VendorRule>, model: string, i: nat)
    ensures var r := FirstMatch(rules, model, i);
      && (r.None? <==> forall k | i <= k < |rules| :: !Matches(rules[k], model))
      && (r.Some? ==> exists k | i <= k < |rules| ::
            && r.value == rules[k].variable && Matches(rules[k], model)
            && forall l | i <= l < k :: !Matches(rules[l], model))
    decreases |rules| - i
  {
    if i >= |rules| {
    } else if Matches(rules[i], model) {
      assert FirstMatch(rules, model, i) == Some(rules[i].variable);
    } else {
      assert FirstMatch(rules, model, i) == FirstMatch(rules, model, i + 1);
      FirstMatchIsFirst(rules, model, i + 1);
    }
  }

  /** The text a rule searches: the model, lower-cased when the rule ignores case. */
  function Searched(rule: VendorRule, model: string): string {
    if rule.caseless then Lower(model) else model
  }

  lemma MatchesAny(rule: VendorRule, model: string)
    requires 1 <= |rule.needles| <= 3
    ensures Matches(rule, model) <==>
      || Contains(Searched(rule, model), rule.needles[0])
      || (|rule.needles| > 1 && Contains(Searched(rule, model), rule.needles[1]))
      || (|rule.needles| > 2 && Contains(Searched(rule, model), rule.needles[2]))
  {
  }

  /** Each vendor rule matches exactly when the corresponding test of `__init__` holds. */
  lemma VendorTests(model: string)
    ensures Matches(VendorRules[0], model) <==> Contains(model, "anthropic")
    ensures Matches(VendorRules[1], model) <==> Contains(model, "openai") || Contains(model, "gpt")
    ensures Matches(VendorRules[2], model) <==> Contains(Lower(model), "gemini")
    ensures Matches(VendorRules[3], model) <==> Contains(model, "zhipu") || Contains(model, "glm") || Contains(model, "zai")
    ensures Matches(VendorRules[4], model) <==> Contains(model, "groq")
  {
    MatchesAny(VendorRules[0], model);
    MatchesAny(VendorRules[1], model);
    MatchesAny(VendorRules[2], model);
    MatchesAny(VendorRules[3], model);
    MatchesAny(VendorRules[4], model);
  }

  /** Only the Gemini test lower-cases the name; the others match it as written. */
  lemma OnlyGeminiCaseless()
    ensures forall k | 0 <= k < |VendorRules| :: VendorRules[k].caseless <==> VendorRules[k].variable == "GEMINI_API_KEY"
  {
  }

  /**
   * The slot `__init__` writes: OpenRouter, then vLLM (both overwrite), then the vendor the
   * default model names, first match wins (only written when absent). Only "gemini" is
   * matched case-insensitively.
   */
  function EnvSlot(apiKey: Option<string>, apiBase: Option<string>, model: string): (r: Option<EnvWrite>)
    ensures !Present(apiKey) ==> r == None
    ensures Present(apiKey) && IsOpenRouter(apiKey, apiBase) ==> r == Some(EnvWrite("OPENROUTER_API_KEY", true))
    ensures Present(apiKey) && IsVllm(apiKey, apiBase) ==> r == Some(EnvWrite("OPENAI_API_KEY", true))
    ensures Present(apiKey) && !IsOpenRouter(apiKey, apiBase) && !IsVllm(apiKey, apiBase) ==>
      var f := FirstMatch(VendorRules, model, 0);
      r == if f.Some? then Some(EnvWrite(f.value, false)) else None
  {
    VendorTests(model);
    ProviderKinds(apiKey, apiBase);
    if !Present(apiKey) then None
    else if IsOpenRouter(apiKey, apiBase) then Some(EnvWrite("OPENROUTER_API_KEY", true))
    else if IsVllm(apiKey, apiBase) then Some(EnvWrite("OPENAI_API_KEY", true))
    else if Contains(model, "anthropic") then Some(EnvWrite("ANTHROPIC_API_KEY", false))
    else if Contains(model, "openai") || Contains(model, "gpt") then Some(EnvWrite("OPENAI_API_KEY", false))
    else if Contains(Lower(model), "gemini") then Some(EnvWrite("GEMINI_API_KEY", false))
    else if Contains(model, "zhipu") || Contains(model, "glm") || Contains(model, "zai") then Some(EnvWrite("ZHIPUAI_API_KEY", false))
    else if Contains(model, "groq") then Some(EnvWrite("GROQ_API_KEY", false))
    else None
  }

  /**
   * The environment after `__init__`: at most the selected slot changes; an overwriting slot
   * gets the key, any other slot keeps a value it already had (`setdefault`).
   */
  function ConfigureEnv(env: map<string, string>, apiKey: Option<string>, apiBase: Option<string>, model: string): (r: map<string, string>)
    ensures EnvSlot(apiKey, apiBase, model).None? ==> r == env
    ensures EnvSlot(apiKey, apiBase, model).Some? ==>
      var w := EnvSlot(apiKey, apiBase, model).value;
      && w.name in r
      && (forall n :: n != w.name ==> (n in r <==> n in env))
      && (forall n :: n != w.name && n in env ==> r[n] == env[n])
      && (w.overwrite || w.name !in env ==> r[w.name] == apiKey.value)
      && (!w.overwrite && w.name in env ==> r[w.name] == env[w.name])
  {
    match EnvSlot(apiKey, apiBase, model)
    case None => env
    case Some(w) => if w.overwrite || w.name !in env then env[w.name := apiKey.value] else env
  }

  lemma UpperCaseNoLowerVendor()
    ensures !Contains("ANTHROPIC/CLAUDE", "anthropic") && !Contains("ANTHROPIC/CLAUDE", "openai")
    ensures !Contains("ANTHROPIC/CLAUDE", "gpt") && !Contains("ANTHROPIC/CLAUDE", "zhipu")
    ensures !Contains("ANTHROPIC/CLAUDE", "glm") && !Contains("ANTHROPIC/CLAUDE", "zai")
    ensures !Contains("ANTHROPIC/CLAUDE", "groq")
  {
    var upper := "ANTHROPIC/CLAUDE";
    assert 'a' !in upper && 'o' !in upper && 'g' !in upper && 'z' !in upper;
    MissingChar(upper, "anthropic", 'a');
    MissingChar(upper, "openai", 'o');
    MissingChar(upper, "gpt", 'g');
    MissingChar(upper, "zhipu", 'z');
    MissingChar(upper, "glm", 'g');
    MissingChar(upper, "zai", 'z');
    MissingChar(upper, "groq", 'g');
  }

  lemma UpperCaseNoGemini()
    ensures !Contains(Lower("ANTHROPIC/CLAUDE"), "gemini")
  {
    var lower := Lower("ANTHROPIC/CLAUDE");
    assert lower == "anthropic/claude";
    MissingChar(lower, "gemini", 'g');
  }

  /** Vendor names are matched as written: an upper-case Anthropic model name selects no slot. */
  lemma UpperCaseVendorIgnored(key: string)
    requires key != "" && !StartsWith(key, "sk-or-")
    ensures EnvSlot(Some(key), None, "ANTHROPIC/CLAUDE") == None
  {
    UpperCaseNoLowerVendor();
    UpperCaseNoGemini();
  }

  /**
   * The Gemini test alone ignores case: a model whose lower-cased name contains "gemini", and
   * that names neither Anthropic nor OpenAI, selects GEMINI_API_KEY whatever its case.
   */
  lemma GeminiMatchedAnyCase(key: string, model: string)
    requires key != "" && !StartsWith(key, "sk-or-")
    requires Contains(Lower(model), "gemini")
    requires !Contains(model, "anthropic") && !Contains(model, "openai") && !Contains(model, "gpt")
    ensures FirstMatch(VendorRules, model, 0) == Some("GEMINI_API_KEY")
    ensures EnvSlot(Some(key), None, model) == Some(EnvWrite("GEMINI_API_KEY", false))
  {
    VendorTests(model);
    assert FirstMatch(VendorRules, model, 1) == FirstMatch(VendorRules, model, 2);
  }

  /** The first test that matches decides: a name naming both Anthropic and GPT selects ANTHROPIC_API_KEY. */
  lemma FirstVendorWins(key: string)
    requires key != "" && !StartsWith(key, "sk-or-")
    ensures Matches(VendorRules[0], "anthropic/gpt-x") && Matches(VendorRules[1], "anthropic/gpt-x")
    ensures EnvSlot(Some(key), None, "anthropic/gpt-x") == Some(EnvWrite("ANTHROPIC_API_KEY", false))
  {
    var m := "anthropic/gpt-x";
    VendorTests(m);
    assert OccursAt(m, "anthropic", 0);
    assert m[10..13] == "gpt";
    assert OccursAt(m, "gpt", 10);
  }

  /** `"openrouter/"` is added exactly when the provider is OpenRouter's and the name lacks it. */
  function OpenRouterStep(isOpenRouter: bool, model: string): (r: string)
    ensures r != model <==> isOpenRouter && !StartsWith(model, "openrouter/")
    ensures r != model ==> r == "openrouter/" + model
    ensures EndsWith(r, model)
  {
    EndsWithPrepend("openrouter/", model);
    if isOpenRouter && !StartsWith(model, "openrouter/") then "openrouter/" + model else model
  }

  /** `"zhipu/"` is added to a GLM or Zhipu name (any case) not already carrying a zhipu/, zai/ or openrouter/ prefix. */
  function ZhipuStep(model: string): (r: string)
    ensures r != model <==>
      (Contains(Lower(model), "glm") || Contains(Lower(model), "zhipu"))
      && !(StartsWith(model, "zhipu/") || StartsWith(model, "zai/") || StartsWith(model, "openrouter/"))
    ensures r != model ==> r == "zhipu/" + model
    ensures EndsWith(r, model)
  {
    EndsWithPrepend("zhipu/", model);
    if (Contains(Lower(model), "glm") || Contains(Lower(model), "zhipu"))
       && !(StartsWith(model, "zhipu/") || StartsWith(model, "zai/") || StartsWith(model, "openrouter/"))
    then "zhipu/" + model
    else model
  }

  /** `"hosted_vllm/"` is added under vLLM whatever the name already carries. */
  function VllmStep(isVllm: bool, model: string): (r: string)
    ensures isVllm ==> r == "hosted_vllm/" + model
    ensures !isVllm ==> r == model
    ensures EndsWith(r, model)
  {
    EndsWithPrepend("hosted_vllm/", model);
    if isVllm then "hosted_vllm/" + model else model
  }

  /** `"gemini/"` is added to a Gemini name (any case) that does not start with it, after every other prefix. */
  function GeminiStep(model: string): (r: string)
    ensures r != model <==> Contains(Lower(model), "gemini") && !StartsWith(model, "gemini/")
    ensures r != model ==> r == "gemini/" + model
    ensures EndsWith(r, model)
  {
    EndsWithPrepend("gemini/", model);
    if Contains(Lower(model), "gemini") && !StartsWith(model, "gemini/") then "gemini/" + model else model
  }

  /** The name `chat` sends: only ever prefixed, so the caller's name is a suffix of it. */
  function NormaliseModel(isOpenRouter: bool, isVllm: bool, model: string): (r: string)
    ensures EndsWith(r, model)
    ensures isVllm ==> |r| >= |model| + |"hosted_vllm/"|
  {
    var a := OpenRouterStep(isOpenRouter, model);
    var b := ZhipuStep(a);
    var c := VllmStep(isVllm, b);
    var d := GeminiStep(c);
    EndsWithTrans(b, a, model);
    EndsWithTrans(c, b, model);
    EndsWithTrans(d, c, model);
    d
  }

  /** Under vLLM the chain always grows the name, so normalising a normalised name changes it again. */
  lemma VllmNotIdempotent(isOpenRouter: bool, model: string)
    ensures NormaliseModel(isOpenRouter, true, NormaliseModel(isOpenRouter, true, model)) != NormaliseModel(isOpenRouter, true, model)
  {
  }

  /**
   * Under OpenRouter no zhipu/ or hosted_vllm/ prefix is ever added: the result is the
   * OpenRouter name, possibly wrapped by the gemini rule.
   */
  lemma OpenRouterChain(apiKey: Option<string>, apiBase: Option<string>, model: string)
    requires IsOpenRouter(apiKey, apiBase)
    ensures var o := if StartsWith(model, "openrouter/") then model else "openrouter/" + model;
      var r := NormaliseModel(IsOpenRouter(apiKey, apiBase), IsVllm(apiKey, apiBase), model);
      r == o || r == "gemini/" + o
  {
    var o := OpenRouterStep(true, model);
    StartsWithPrepend("openrouter/", model);
    assert StartsWith(o, "openrouter/");
  }

  lemma GeminiInOpenRouterName()
    ensures !StartsWith("google/gemini-pro", "openrouter/")
    ensures Contains(Lower("openrouter/" + "google/gemini-pro"), "gemini")
    ensures !StartsWith("openrouter/" + "google/gemini-pro", "gemini/")
  {
    var m := "google/gemini-pro";
    var o := "openrouter/" + m;
    assert m[0] != "openrouter/"[0];
    assert o[18..24] == m[7..13] == "gemini";
    assert Lower(o)[18..24] == "gemini";
    assert OccursAt(Lower(o), "gemini", 18);
    assert o[0] != "gemini/"[0];
  }

  /** The gemini rule runs last and wraps an OpenRouter name. */
  lemma GeminiWrapsOpenRouter()
    ensures var m := "google/gemini-pro"; NormaliseModel(true, false, m) == "gemini/" + "openrouter/" + m
  {
    var m := "google/gemini-pro";
    GeminiInOpenRouterName();
    StartsWithPrepend("openrouter/", m);
  }

  /** Without OpenRouter or vLLM, a name naming no GLM, Zhipu or Gemini model is sent unchanged. */
  lemma PlainNameUnchanged(model: string)
    requires !Contains(Lower(model), "glm") && !Contains(Lower(model), "zhipu") && !Contains(Lower(model), "gemini")
    ensures NormaliseModel(false, false, model) == model
  {
  }

  /** What `acompletion` receives. */
  datatype Completion = Completion(
    model: string,
    messages: seq<ChatMessage>,
    maxTokens: int,
    apiBase: Option<string>,
    tools: Option<seq<string>>,
    toolChoice: Option<string>)

  /** A call's `function.arguments`: a JSON string still to decode, or an already decoded object. */
  datatype RawArguments = Encoded(text: string) | Decoded(args: Args)

  datatype RawToolCall = RawToolCall(id: string, name: string, arguments: RawArguments)

  datatype RawUsage = RawUsage(promptTokens: int, completionTokens: int, totalTokens: int)

  datatype RawMessage = RawMessage(content: Option<string>, toolCalls: Option<seq<RawToolCall>>)

  datatype RawChoice = RawChoice(message: RawMessage, finishReason: Option<string>)

  datatype RawResponse = RawResponse(choices: seq<RawChoice>, usage: Option<RawUsage>)

  /** One parsed call: string arguments are decoded, and text that is not JSON is kept under "raw". */
  function ParseToolCall(decode: string -> Option<Args>, tc: RawToolCall): (r: ToolCallRequest)
    ensures r.id == tc.id && r.name == tc.name
    ensures tc.arguments.Decoded? ==> r.arguments == tc.arguments.args
    ensures tc.arguments.Encoded? && decode(tc.arguments.text).Some? ==> r.arguments == decode(tc.arguments.text).value
    ensures tc.arguments.Encoded? && decode(tc.arguments.text).None? ==> r.arguments == map["raw" := Text(tc.arguments.text)]
  {
    var args := match tc.arguments
      case Decoded(a) => a
      case Encoded(s) => match decode(s) case Some(a) => a case None => map["raw" := Text(s)];
    ToolCallRequest(tc.id, tc.name, args)
  }

  /** The tool-call loop of `_parse_response`: one request per raw call, in order. */
  method ParseToolCalls(decode: string -> Option<Args>, raw: seq<RawToolCall>) returns (calls: seq<ToolCallRequest>)
    ensures |calls| == |raw|
    ensures forall i :: 0 <= i < |raw| ==> calls[i] == ParseToolCall(decode, raw[i])
  {
    calls := [];
    for i := 0 to |raw|
      invariant |calls| == i
      invariant forall j :: 0 <= j < i ==> calls[j] == ParseToolCall(decode, raw[j])
    {
      calls := calls + [ParseToolCall(decode, raw[i])];
    }
  }

  /** The usage statistics, or none. */
  function UsageMap(usage: Option<RawUsage>): (r: map<string, int>)
    ensures usage.None? ==> r == map[]
    ensures usage.Some? ==>
      && r.Keys == {"prompt_tokens", "completion_tokens", "total_tokens"}
      && r["prompt_tokens"] == usage.value.promptTokens
      && r["completion_tokens"] == usage.value.completionTokens
      && r["total_tokens"] == usage.value.totalTokens
  {
    match usage
    case None => map[]
    case Some(u) => map["prompt_tokens" := u.promptTokens, "completion_tokens" := u.completionTokens, "total_tokens" := u.totalTokens]
  }

  /**
   * `_parse_response`: the first choice's content and tool calls, its finish reason or "stop",
   * and the usage; an empty choice list raises.
   */
  function Parsed(decode: string -> Option<Args>, raw: RawResponse): (r: Result<LLMResponse, string>)
    ensures |raw.choices| == 0 <==> r == Failure(NoChoiceError)
    ensures r.Success? ==>
      var c := raw.choices[0];
      var calls := c.message.toolCalls.GetOr([]);
      && r.value.content == c.message.content
      && |r.value.toolCalls| == |calls|
      && (forall i :: 0 <= i < |calls| ==> r.value.toolCalls[i] == ParseToolCall(decode, calls[i]))
      && (!Present(c.finishReason) ==> r.value.finishReason == "stop")
      && (Present(c.finishReason) ==> r.value.finishReason == c.finishReason.value)
      && r.value.usage == UsageMap(raw.usage)
  {
    if |raw.choices| == 0 then Failure(NoChoiceError)
    else
      var c := raw.choices[0];
      var calls := c.message.toolCalls.GetOr([]);
      Success(LLMResponse(
        c.message.content,
        seq(|calls|, i requires 0 <= i < |calls| => ParseToolCall(decode, calls[i])),
        if Present(c.finishReason) then c.finishReason.value else "stop",
        UsageMap(raw.usage)))
  }

  /** `_parse_response`, building the tool calls with its loop. */
  method ParseResponse(decode: string -> Option<Args>, raw: RawResponse) returns (r: Result<LLMResponse, string>)
    ensures r == Parsed(decode, raw)
  {
    if |raw.choices| == 0 {
      return Failure(NoChoiceError);
    }
    var choice := raw.choices[0];
    var calls := [];
    if choice.message.toolCalls.Some? && |choice.message.toolCalls.value| > 0 {
      calls := ParseToolCalls(decode, choice.message.toolCalls.value);
    }
    ghost var raws := choice.message.toolCalls.GetOr([]);
    assert calls == seq(|raws|, i requires 0 <= i < |raws| => ParseToolCall(decode, raws[i]));
    var reason := if Present(choice.finishReason) then choice.finishReason.value else "stop";
    r := Success(LLMResponse(choice.message.content, calls, reason, UsageMap(raw.usage)));
  }

  /** The response `chat` returns in place of raising. */
  function FailureResponse(error: string): (r: LLMResponse)
    ensures !r.HasToolCalls() && r.finishReason == "error" && r.usage == map[]
    ensures r.content.Some? && StartsWith(r.content.value, FailurePrefix)
  {
    StartsWithPrepend(FailurePrefix, error);
    LLMResponse(Some(FailurePrefix + error), [], "error", map[])
  }

  /** `os.environ` and the `litellm.api_base` / `litellm.suppress_debug_info` globals. */
  class Environment {
    var vars: map<string, string>
    var apiBase: Option<string>
    var suppressDebugInfo: bool

    constructor (vars: map<string, string>)
      ensures this.vars == vars && apiBase == None && !suppressDebugInfo
    {
      this.vars := vars;
      apiBase := None;
      suppressDebugInfo := false;
    }
  }

  class LiteLLMProvider {
    const apiKey: Option<string>
    const apiBase: Option<string>
    const defaultModel: string
    const isOpenRouter: bool
    const isVllm: bool
    const complete: (nat, Completion) -> Result<RawResponse, string>
    const decode: string -> Option<Args>
    /** The number of completions requested so far. */
    var calls: nat

    /** `__init__`: detects the provider kind, writes the key's slot and the base URL, silences LiteLLM. */
    constructor (env: Environment, apiKey: Option<string>, apiBase: Option<string>, defaultModel: Option<string>,
                 complete: (nat, Completion) -> Result<RawResponse, string>, decode: string -> Option<Args>)
      modifies env
      ensures this.apiKey == apiKey && this.apiBase == apiBase && this.defaultModel == defaultModel.GetOr(DefaultModel)
      ensures isOpenRouter == IsOpenRouter(apiKey, apiBase) && isVllm == IsVllm(apiKey, apiBase)
      ensures this.complete == complete && this.decode == decode && calls == 0
      ensures env.vars == ConfigureEnv(old(env.vars), apiKey, apiBase, this.defaultModel)
      ensures env.apiBase == if Present(apiBase) then apiBase else old(env.apiBase)
      ensures env.suppressDebugInfo
    {
      this.apiKey := apiKey;
      this.apiBase := apiBase;
      var model := defaultModel.GetOr(DefaultModel);
      this.defaultModel := model;
      var openRouter := (apiKey.Some? && StartsWith(apiKey.value, "sk-or-")) || (apiBase.Some? && Contains(apiBase.value, "openrouter"));
      var vllm := Present(apiBase) && !openRouter;
      this.isOpenRouter := openRouter;
      this.isVllm := vllm;
      this.complete := complete;
      this.decode := decode;
      calls := 0;
      match EnvSlot(apiKey, apiBase, model) {
        case None =>
        case Some(w) =>
          if w.overwrite || w.name !in env.vars {
            env.vars := env.vars[w.name := apiKey.value];
          }
      }
      if Present(apiBase) {
        env.apiBase := apiBase;
      }
      env.suppressDebugInfo := true;
    }

    /** The completion request `chat` builds: tools and `tool_choice` only for a non-empty tool list. */
    function Request(messages: seq<ChatMessage>, tools: seq<string>, model: Option<string>, maxTokens: int): (c: Completion)
      ensures var name := if Present(model) then model.value else defaultModel;
        EndsWith(c.model, name) && c.model == NormaliseModel(isOpenRouter, isVllm, name)
      ensures c.messages == messages && c.maxTokens == maxTokens
      ensures c.tools.Some? <==> |tools| > 0
      ensures c.toolChoice.Some? <==> |tools| > 0
      ensures |tools| > 0 ==> c.tools == Some(tools) && c.toolChoice == Some("auto")
      ensures c.apiBase.Some? <==> Present(apiBase)
      ensures Present(apiBase) ==> c.apiBase == apiBase
    {
      var name := if Present(model) then model.value else defaultModel;
      var normalised := NormaliseModel(isOpenRouter, isVllm, name);
      Completion(
        normalised, messages, maxTokens,
        if Present(apiBase) then apiBase else None,
        if |tools| > 0 then Some(tools) else None,
        if |tools| > 0 then Some("auto") else None)
    }

    /** What `chat` returns for its n-th call; failures of the call or of the parse are reported in the response. */
    function Respond(n: nat, messages: seq<ChatMessage>, tools: seq<string>, model: Option<string>, maxTokens: int): (r: LLMResponse)
      ensures var c := complete(n, Request(messages, tools, model, maxTokens));
        && (c.Failure? ==> r == FailureResponse(c.error))
        && (c.Success? && |c.value.choices| == 0 ==> r == FailureResponse(NoChoiceError))
        && (c.Success? && |c.value.choices| > 0 ==> r == Parsed(decode, c.value).value)
    {
      match complete(n, Request(messages, tools, model, maxTokens))
      case Failure(e) => FailureResponse(e)
      case Success(raw) =>
        match Parsed(decode, raw)
        case Failure(e) => FailureResponse(e)
        case Success(r) => r
    }

    /** `chat`: one completion request, never raising. */
    method Chat(messages: seq<ChatMessage>, tools: seq<string>, model: Option<string>, maxTokens: int) returns (r: LLMResponse)
      modifies this`calls
      ensures r == Respond(old(calls), messages, tools, model, maxTokens)
      ensures calls == old(calls) + 1
    {
      var name := if model.Some? && model.value != "" then model.value else defaultModel;
      name := OpenRouterStep(isOpenRouter, name);
      name := ZhipuStep(name);
      name := VllmStep(isVllm, name);
      name := GeminiStep(name);
      var request := Completion(name, messages, maxTokens,
        if Present(apiBase) then apiBase else None,
        if |tools| > 0 then Some(tools) else None,
        if |tools| > 0 then Some("auto") else None);
      var outcome := complete(calls, request);
      calls := calls + 1;
      match outcome {
        case Failure(e) =>
          r := FailureResponse(e);
        case Success(raw) =>
          var parsed := ParseResponse(decode, raw);
          r := if parsed.Success? then parsed.value else FailureResponse(parsed.error);
      }
    }

    /** The provider as the agent loop sees it: the loop's messages, tools and model, default token limit. */
    function Oracle(): (o: (nat, ChatRequest) -> ChatOutcome)
      ensures forall n: nat, q: ChatRequest :: o(n, q).Reply?
    {
      (n: nat, q: ChatRequest) => Reply(Respond(n, q.messages, q.tools, Some(q.model), DefaultMaxTokens))
    }
  }

  /** A failed completion and an empty choice list both come back as an error response. */
  lemma FailuresReported(p: LiteLLMProvider, n: nat, messages: seq<ChatMessage>, tools: seq<string>, model: Option<string>, maxTokens: int)
    ensures var c := p.complete(n, p.Request(messages, tools, model, maxTokens));
      var r := p.Respond(n, messages, tools, model, maxTokens);
      && (c.Failure? ==> r == FailureResponse(c.error))
      && (c.Success? && |c.value.choices| == 0 ==> r.content == Some(FailurePrefix + NoChoiceError) && r.finishReason == "error")
  {
  }

  /** With a provider that always answers, the tool loop never ends by a raised error. */
  lemma {:induction false} NeverCrashes(cfg: LoopConfig, start: nat, messages: seq<ChatMessage>, max: int, trace: seq<ChatOutcome>)
    requires forall n, q :: cfg.respond(n, q).Reply?
    ensures !ToolLoop(cfg, start, messages, max, trace).ending.Crashed?
    decreases max - |trace|
  {
    if |trace| < max {
      var o := cfg.respond(start + |trace|, Request(cfg, messages));
      if o.response.HasToolCalls() {
        NeverCrashes(cfg, start, messages + Round(cfg, o.response), max, trace + [o]);
      }
    }
  }

  /**
   * A turn driven by the LiteLLM provider never raises; when its first completion fails, the
   * turn ends at once with the error text as its answer.
   */
  lemma LiteLLMTurns(p: LiteLLMProvider, cfg: LoopConfig, start: nat, init: seq<ChatMessage>, max: int)
    requires cfg.respond == p.Oracle()
    ensures !ToolLoop(cfg, start, init, max, []).ending.Crashed?
    ensures max > 0 && p.complete(start, p.Request(init, cfg.registry.Definitions(), Some(cfg.model), DefaultMaxTokens)).Failure? ==>
      var e := p.complete(start, p.Request(init, cfg.registry.Definitions(), Some(cfg.model), DefaultMaxTokens)).error;
      ToolLoop(cfg, start, init, max, []).Final() == Some(FailurePrefix + e)
  {
    NeverCrashes(cfg, start, init, max, []);
    var c := p.complete(start, p.Request(init, cfg.registry.Definitions(), Some(cfg.model), DefaultMaxTokens));
    if max > 0 && c.Failure? {
      var q := Turns.Request(cfg, init);
      assert cfg.respond(start, q) == Reply(p.Respond(start, init, cfg.registry.Definitions(), Some(cfg.model), DefaultMaxTokens));
      assert p.Respond(start, init, cfg.registry.Definitions(), Some(cfg.model), DefaultMaxTokens) == FailureResponse(c.error);
    }
  }
}
