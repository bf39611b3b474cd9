/** Application settings: the API keys read from the environment, the
    table of model configurations, and the check that all language-model
    keys are present.  A key counts as set when it is present and not
    empty, as Python's truthiness has it. */
module Config {
  import opened Wrappers

  /** The keys the settings object may hold. */
  datatype Settings = Settings(
    anthropicKey: Option<string>,
    openaiKey: Option<string>,
    googleKey: Option<string>,
    hyperbrowserKey: Option<string>)

  predicate IsSet(key: Option<string>) {
    key.Some? && key.value != []
  }

  /** One entry of `ai_model_configs`. */
  datatype ModelConfig = ModelConfig(provider: string, model: string, maxTokens: int)

  const DefaultModel: string := "agentic"

  const ModelConfigs: map<string, ModelConfig> := map[
    "agentic" := ModelConfig("anthropic", "claude-3-5-sonnet-20241022", 4000),
    "fast" := ModelConfig("openai", "gpt-4o", 4000),
    "precise" := ModelConfig("google", "gemini-2.0-flash-exp", 4000),
    "economic" := ModelConfig("openai", "gpt-4o-mini", 4000)]

  /** The default model has a configuration, and every configuration
      allows 4000 tokens. */
  lemma DefaultConfigured()
    ensures DefaultModel in ModelConfigs
    ensures forall m :: m in ModelConfigs ==> ModelConfigs[m].maxTokens == 4000
  {
  }

  /** The environment names of the three language-model keys, in the
      order they are checked. */
  const KeyNames: seq<string> := ["ANTHROPIC_API_KEY", "OPENAI_API_KEY", "GOOGLE_AI_API_KEY"]

  function KeyAt(s: Settings, k: nat): Option<string>
    requires k < 3
  {
    if k == 0 then s.anthropicKey else if k == 1 then s.openaiKey else s.googleKey
  }

  /** The position of a key name in the checking order. */
  function Rank(name: string): nat {
    if name == KeyNames[0] then 0 else if name == KeyNames[1] then 1 else 2
  }

  /** `validate_api_keys`: true with nothing missing, or false with the
      missing key names in checking order. */
  method ValidateApiKeys(s: Settings) returns (ok: bool, missing: seq<string>)
    ensures ok <==> IsSet(s.anthropicKey) && IsSet(s.openaiKey) && IsSet(s.googleKey)
    ensures ok <==> missing == []
    ensures forall k :: 0 <= k < 3 ==> (KeyNames[k] in missing <==> !IsSet(KeyAt(s, k)))
    ensures forall i :: 0 <= i < |missing| ==> missing[i] in KeyNames
    ensures forall i, j :: 0 <= i < j < |missing| ==> Rank(missing[i]) < Rank(missing[j])
  {
    missing := [];
    if !IsSet(s.anthropicKey) {
      missing := missing + ["ANTHROPIC_API_KEY"];
    }
    if !IsSet(s.openaiKey) {
      missing := missing + ["OPENAI_API_KEY"];
    }
    if !IsSet(s.googleKey) {
      missing := missing + ["GOOGLE_AI_API_KEY"];
    }
    ok := missing == [];
  }
}
