/**
 * Application settings and the choice of model provider. Gemini is the
 * primary provider and OpenAI the fallback; an API key counts as configured
 * as soon as it is present, even when it is empty.
 */
module Config {
  import opened Wrappers

  datatype Settings = Settings(
    geminiApiKey: Option<string>,
    openaiApiKey: Option<string>,
    appName: string,
    appVersion: string,
    debugMode: bool,
    chromaPersistDirectory: string,
    chromaCollectionName: string,
    documentsPath: string,
    chunkSize: int,
    chunkOverlap: int,
    retrievalTopK: int,
    llmTemperature: real,
    llmMaxOutputTokens: int,
    embeddingModel: string,
    chatModel: string)
  {
    predicate IsGeminiConfigured() { geminiApiKey.Some? }
    predicate IsOpenAIConfigured() { openaiApiKey.Some? }
  }

  /** The settings when the environment supplies nothing but the two keys. */
  function DefaultSettings(geminiApiKey: Option<string>, openaiApiKey: Option<string>): (s: Settings)
    ensures s.geminiApiKey == geminiApiKey && s.openaiApiKey == openaiApiKey
    ensures 0 <= s.chunkOverlap < s.chunkSize && s.retrievalTopK > 0 && !s.debugMode
  {
    Settings(geminiApiKey, openaiApiKey,
      "Healthcare Knowledge Assistant", "1.0.0", false,
      "./vectordb/chroma_db", "healthcare_docs", "./data/sample_docs",
      1000, 200, 5, 0.0, 1000,
      "models/gemini-embedding-001", "models/gemini-2.5-flash")
  }

  /** The providers a client can be configured for. */
  datatype Provider = Gemini | OpenAI {
    function Tag(): string {
      match this
      case Gemini => "gemini"
      case OpenAI => "openai"
    }
  }

  datatype ClientConfig = ClientConfig(provider: Provider, apiKey: string, model: string)

  const LlmNotConfigured :=
    "❌ Neither Gemini nor OpenAI is properly configured. Please set GEMINI_API_KEY in .env file for primary support."
  const EmbeddingsNotConfigured :=
    "❌ Neither Gemini nor OpenAI is properly configured for embeddings. Please set GEMINI_API_KEY in .env file."
  const StartupNotConfigured :=
    "❌ Application is not properly configured.\nPlease set GEMINI_API_KEY in your .env file for Gemini support."

  /** The chat client's configuration: Gemini when its key is set, else OpenAI, else an error. */
  function GetLlmConfig(s: Settings): (r: Result<ClientConfig, string>)
    ensures r.Success? <==> s.IsGeminiConfigured() || s.IsOpenAIConfigured()
    ensures r.Success? ==> r.value.model == s.chatModel
    ensures r.Success? ==> (r.value.provider == Gemini <==> s.IsGeminiConfigured())
    ensures r.Success? && r.value.provider == Gemini ==> r.value.apiKey == s.geminiApiKey.value
    ensures r.Success? && r.value.provider == OpenAI ==> r.value.apiKey == s.openaiApiKey.value
    ensures r.Failure? ==> r.error == LlmNotConfigured
  {
    if s.IsGeminiConfigured() then Success(ClientConfig(Gemini, s.geminiApiKey.value, s.chatModel))
    else if s.IsOpenAIConfigured() then Success(ClientConfig(OpenAI, s.openaiApiKey.value, s.chatModel))
    else Failure(LlmNotConfigured)
  }

  /** The embedding client's configuration, chosen by the same priority. */
  function GetEmbeddingConfig(s: Settings): (r: Result<ClientConfig, string>)
    ensures r.Success? <==> s.IsGeminiConfigured() || s.IsOpenAIConfigured()
    ensures r.Success? ==> r.value.model == s.embeddingModel
    ensures r.Failure? ==> r.error == EmbeddingsNotConfigured
  {
    if s.IsGeminiConfigured() then Success(ClientConfig(Gemini, s.geminiApiKey.value, s.embeddingModel))
    else if s.IsOpenAIConfigured() then Success(ClientConfig(OpenAI, s.openaiApiKey.value, s.embeddingModel))
    else Failure(EmbeddingsNotConfigured)
  }

  /** Chat and embeddings always go to the same provider with the same key. */
  lemma ClientsAgree(s: Settings)
    ensures GetLlmConfig(s).Success? <==> GetEmbeddingConfig(s).Success?
    ensures GetLlmConfig(s).Success? ==>
      GetLlmConfig(s).value.provider == GetEmbeddingConfig(s).value.provider
      && GetLlmConfig(s).value.apiKey == GetEmbeddingConfig(s).value.apiKey
  {
  }

  /** The check made when the settings are first loaded: at least one key must be present. */
  function Startup(s: Settings): (r: Result<Settings, string>)
    ensures r.Success? <==> s.IsGeminiConfigured() || s.IsOpenAIConfigured()
    ensures r.Success? ==> r.value == s
    ensures r.Failure? ==> r.error == StartupNotConfigured
  {
    if !s.IsGeminiConfigured() && !s.IsOpenAIConfigured() then Failure(StartupNotConfigured)
    else Success(s)
  }

  /** Once the application has started, asking for either client configuration cannot fail. */
  lemma StartedImpliesConfigured(s: Settings)
    requires Startup(s).Success?
    ensures GetLlmConfig(s).Success? && GetEmbeddingConfig(s).Success?
    ensures GetLlmConfig(Startup(s).value).value.provider.Tag() in {"gemini", "openai"}
  {
  }
}
