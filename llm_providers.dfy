/**
 * The frontend's table of known LLM providers and its three lookups. Each
 * lookup is a first-match search over the constant table with a fallback
 * for an unknown id.
 */
module LLMProviders {
  import opened Wrappers
  import opened Seqs

  datatype ProviderInfo = ProviderInfo(
    id: string,
    name: string,
    icon: string,
    description: string,
    endpoint: string,
    models: seq<string>)

  const DEFAULT_ICON := "/src/assets/images/providers/default.png"

  const LLM_PROVIDERS: seq<ProviderInfo> := [
    ProviderInfo(
      "openai", "OpenAI", "/src/assets/images/providers/openai.png",
      "使用OpenAI API访问GPT-3.5, GPT-4等模型。",
      "https://api.openai.com/v1",
      ["gpt-4", "gpt-3.5-turbo"]),
    ProviderInfo(
      "deepseek", "DeepSeek", "/src/assets/images/providers/deepseek.png",
      "使用DeepSeek API访问DeepSeek系列模型。",
      "https://api.deepseek.com/v1",
      ["deepseek-chat", "deepseek-coder"])
  ]

  function HasId(providerId: string): ProviderInfo -> bool {
    (p: ProviderInfo) => p.id == providerId
  }

  /** The first provider with that id, or None (`undefined`). */
  function GetProviderById(providerId: string): (r: Option<ProviderInfo>)
    ensures r.Some? ==> r.value in LLM_PROVIDERS && r.value.id == providerId
    ensures r.None? <==> forall i :: 0 <= i < |LLM_PROVIDERS| ==> LLM_PROVIDERS[i].id != providerId
    ensures forall i :: 0 <= i < |LLM_PROVIDERS| && LLM_PROVIDERS[i].id == providerId
                        && (forall j :: 0 <= j < i ==> LLM_PROVIDERS[j].id != providerId) ==>
                        r == Some(LLM_PROVIDERS[i])
  {
    FindFirst(LLM_PROVIDERS, HasId(providerId))
  }

  /** The icon of the provider with that id, or the default icon; agrees with GetProviderById. */
  function GetProviderIcon(providerId: string): (r: string)
    ensures GetProviderById(providerId).Some? ==> r == GetProviderById(providerId).value.icon
    ensures GetProviderById(providerId).None? ==> r == DEFAULT_ICON
  {
    match FindFirst(LLM_PROVIDERS, HasId(providerId))
    case Some(p) => p.icon
    case None => DEFAULT_ICON
  }

  /** The models of the first provider with that id, or the empty list for an unknown id. */
  function GetProviderModels(providerId: string): (r: seq<string>)
    ensures (forall i :: 0 <= i < |LLM_PROVIDERS| ==> LLM_PROVIDERS[i].id != providerId) ==> r == []
    ensures forall i :: 0 <= i < |LLM_PROVIDERS| && LLM_PROVIDERS[i].id == providerId
                        && (forall j :: 0 <= j < i ==> LLM_PROVIDERS[j].id != providerId) ==>
                        r == LLM_PROVIDERS[i].models
  {
    match GetProviderById(providerId)
    case Some(p) => p.models
    case None => []
  }

  /** No two providers share an id. */
  lemma IdsDistinct()
    ensures forall i, j :: 0 <= i < j < |LLM_PROVIDERS| ==> LLM_PROVIDERS[i].id != LLM_PROVIDERS[j].id
  {
    assert LLM_PROVIDERS[0].id[0] != LLM_PROVIDERS[1].id[0];
  }

  /** Each listed id resolves to its own entry. */
  lemma EachIdResolves(i: int)
    requires 0 <= i < |LLM_PROVIDERS|
    ensures GetProviderById(LLM_PROVIDERS[i].id) == Some(LLM_PROVIDERS[i])
    ensures GetProviderModels(LLM_PROVIDERS[i].id) == LLM_PROVIDERS[i].models
    ensures GetProviderIcon(LLM_PROVIDERS[i].id) == LLM_PROVIDERS[i].icon
  {
    IdsDistinct();
    FindFirstAt(LLM_PROVIDERS, HasId(LLM_PROVIDERS[i].id), i);
  }

  lemma OpenAIModels()
    ensures GetProviderModels("openai") == ["gpt-4", "gpt-3.5-turbo"]
  {
    EachIdResolves(0);
  }
}
