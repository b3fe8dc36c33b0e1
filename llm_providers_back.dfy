/**
 * The table of known LLM providers kept in the second frontend tree, with
 * twelve providers and no descriptions, and the same three lookups.
 */
module LLMProvidersBack {
  import opened Wrappers
  import opened Seqs

  datatype ProviderInfo = ProviderInfo(
    id: string,
    name: string,
    icon: string,
    endpoint: string,
    models: seq<string>)

  const DEFAULT_ICON := "/src/assets/images/providers/default.png"

  const OPENAI := ProviderInfo(
      "openai", "OpenAI", "/src/assets/images/providers/openai.png",
      "https://api.openai.com/v1",
      ["gpt-4o",
       "gpt-4o-mini",
       "gpt-4.1"])

  const DEEPSEEK := ProviderInfo(
      "deepseek", "DeepSeek", "/src/assets/images/providers/deepseek.png",
      "https://api.deepseek.com/v1",
      ["deepseek-chat",
       "deepseek-reasoner"])

  const SILICONFLOW_MODELS: seq<string> := ["THUDM/GLM-Z1-32B-0414",
       "THUDM/GLM-4-32B-0414",
       "THUDM/GLM-Z1-Rumination-32B-0414",
       "THUDM/GLM-4-9B-0414",
       "THUDM/GLM-4-9B-0414",
       "Qwen/QwQ-32B",
       "Pro/deepseek-ai/DeepSeek-R1",
       "Pro/deepseek-ai/DeepSeek-V3",
       "deepseek-ai/DeepSeek-R1",
       "deepseek-ai/DeepSeek-V3",
       "deepseek-ai/DeepSeek-R1-Distill-Qwen-32B",
       "deepseek-ai/DeepSeek-R1-Distill-Qwen-14B",
       "deepseek-ai/DeepSeek-R1-Distill-Qwen-7B",
       "deepseek-ai/DeepSeek-R1-Distill-Qwen-1.5B",
       "Pro/deepseek-ai/DeepSeek-R1-Distill-Qwen-7B",
       "Pro/deepseek-ai/DeepSeek-R1-Distill-Qwen-1.5B"]

  const SILICONFLOW := ProviderInfo(
      "siliconflow", "硅基流动(siliconflow)", "/src/assets/images/providers/deepseek.png",
      "https://api.siliconflow.cn/v1",
      SILICONFLOW_MODELS)

  const BAIDU := ProviderInfo(
      "baidu", "百度", "/src/assets/images/providers/baidu.png",
      "https://qianfan.baidubce.com/v2",
      ["ernie-x1-32k",
       "ernie-4.0-8k-latest",
       "ernie-4.0-8k",
       "ernie-4.0-turbo-8k-latest",
       "ernie-4.0-turbo-128k",
       "ernie-3.5-128k",
       "deepseek-v3",
       "deepseek-r1"])

  const TONGYI := ProviderInfo(
      "tongyi", "通义千问", "/src/assets/images/providers/tongyi.png",
      "https://dashscope.aliyuncs.com/compatible-mode/v1",
      ["qwen-max",
       "qwen-plus",
       "qwen-turbo",
       "qwen-long"])

  const HUNYUAN := ProviderInfo(
      "hunyuan", "腾讯混元", "/src/assets/images/providers/hunyuan.png",
      "https://api.hunyuan.cloud.tencent.com/v1",
      ["hunyuan-lite",
       "hunyuan-standard",
       "hunyuan-standard-256k",
       "hunyuan-turbo-latest",
       "hunyuan-large",
       "hunyuan-large-longcontext"])

  const HUOSHAN := ProviderInfo(
      "huoshan", "火山引擎", "/src/assets/images/providers/huoshan.png",
      "https://ark.cn-beijing.volces.com/api/v3/",
      ["doubao-1-5-pro-32k-250115",
       "doubao-1-5-pro-256k-250115",
       "doubao-1.5-lite-32k-250115",
       "deepseek-v3-250324",
       "deepseek-v3-241226"])

  const GEMINI := ProviderInfo(
      "gemini", "Google Gemini", "/src/assets/images/providers/gemini.png",
      "https://generativelanguage.googleapis.com/v1beta/openai/",
      ["gemini-2.0-flash",
       "gemini-2.0-flash-lite",
       "gemini-1.5-flash",
       "gemini-1.5-pro"])

  const SPARK := ProviderInfo(
      "spark", "讯飞星火", "/src/assets/images/providers/gemini.png",
      "https://spark-api-open.xf-yun.com/v1",
      ["x1",
       "4.0Ultra",
       "generalv3.5",
       "max-32k",
       "generalv3",
       "pro-128k",
       "lite"])

  const COHERE := ProviderInfo(
      "cohere", "cohere", "/src/assets/images/providers/cohere.png",
      "https://api.cohere.ai/compatibility/v1",
      ["command-r-plus",
       "command-r",
       "command",
       "command-light"])

  const KIMI := ProviderInfo(
      "kimi", "Kimi", "/src/assets/images/providers/kimi.png",
      "https://api.moonshot.cn/v1",
      ["kimi-latest-8k",
       "kimi-latest-32k",
       "kimi-latest-128k",
       "moonshot-v1-8k",
       "moonshot-v1-32k",
       "moonshot-v1-128k"])

  const BAICHUAN := ProviderInfo(
      "baichuan", "百川智能", "/src/assets/images/providers/baichuan.png",
      "https://api.baichuan-ai.com/v1",
      ["Baichuan4-Turbo",
       "Baichuan4-Air",
       "Baichuan4",
       "Baichuan3-Turbo",
       "Baichuan3-Turbo-128k",
       "Baichuan2-Turbo"])

  const LLM_PROVIDERS: seq<ProviderInfo> := [OPENAI, DEEPSEEK, SILICONFLOW, BAIDU, TONGYI, HUNYUAN, HUOSHAN, GEMINI, SPARK, COHERE, KIMI, BAICHUAN]

  function HasId(providerId: string): ProviderInfo -> bool {
    (p: ProviderInfo) => p.id == providerId
  }

  /** The first provider with that id, or None (`undefined`). */
  function GetProviderById(providerId: string): (r: Option<ProviderInfo>)
    ensures r.Some? ==> r.value in LLM_PROVIDERS && r.value.id == providerId
    ensures r.None? <==> forall i :: 0 <= i < |LLM_PROVIDERS| ==> LLM_PROVIDERS[i].id != providerId
    ensures forall i :: 0 <= i < |LLM_PROVIDERS| && LLM_PROVIDERS[i].id == providerId
                        && (forall j :: 0 <= j < i ==> LLM_PROVIDERS[j].id != providerId) ==>
                        r == Some(LLM_PROVIDERS[i])
  {
    FindFirst(LLM_PROVIDERS, HasId(providerId))
  }

  /** The icon of the provider with that id, or the default icon; agrees with GetProviderById. */
  function GetProviderIcon(providerId: string): (r: string)
    ensures GetProviderById(providerId).Some? ==> r == GetProviderById(providerId).value.icon
    ensures GetProviderById(providerId).None? ==> r == DEFAULT_ICON
  {
    match FindFirst(LLM_PROVIDERS, HasId(providerId))
    case Some(p) => p.icon
    case None => DEFAULT_ICON
  }

  /** The models of the first provider with that id, or the empty list for an unknown id. */
  function GetProviderModels(providerId: string): (r: seq<string>)
    ensures (forall i :: 0 <= i < |LLM_PROVIDERS| ==> LLM_PROVIDERS[i].id != providerId) ==> r == []
    ensures forall i :: 0 <= i < |LLM_PROVIDERS| && LLM_PROVIDERS[i].id == providerId
                        && (forall j :: 0 <= j < i ==> LLM_PROVIDERS[j].id != providerId) ==>
                        r == LLM_PROVIDERS[i].models
  {
    match GetProviderById(providerId)
    case Some(p) => p.models
    case None => []
  }

  /** No two providers share an id. */
  lemma IdsDistinct()
    ensures forall i, j :: 0 <= i < j < |LLM_PROVIDERS| ==> LLM_PROVIDERS[i].id != LLM_PROVIDERS[j].id
  {
  }

  /** Each listed id resolves to its own entry. */
  lemma EachIdResolves(i: int)
    requires 0 <= i < |LLM_PROVIDERS|
    ensures GetProviderById(LLM_PROVIDERS[i].id) == Some(LLM_PROVIDERS[i])
    ensures GetProviderModels(LLM_PROVIDERS[i].id) == LLM_PROVIDERS[i].models
    ensures GetProviderIcon(LLM_PROVIDERS[i].id) == LLM_PROVIDERS[i].icon
  {
    IdsDistinct();
    FindFirstAt(LLM_PROVIDERS, HasId(LLM_PROVIDERS[i].id), i);
  }

  /** Model lists are returned as stored: siliconflow's list, which names one model twice. */
  lemma SiliconflowModels()
    ensures GetProviderModels("siliconflow") == SILICONFLOW_MODELS
  {
    assert LLM_PROVIDERS[2] == SILICONFLOW;
    EachIdResolves(2);
  }

  /** siliconflow's list is not duplicate-free: entries 3 and 4 are the same model. */
  lemma SiliconflowListsAModelTwice()
    ensures |SILICONFLOW_MODELS| == 16
    ensures SILICONFLOW_MODELS[3] == SILICONFLOW_MODELS[4] == "THUDM/GLM-4-9B-0414"
  {
  }
}
