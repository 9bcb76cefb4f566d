/** Model selection of core/settings.py. The environment is a map from
    variable names to values, read once into a `Settings` value; the model
    objects of the LLM framework become tags naming what would be built. */
module ModelSettings {
  import opened Wrappers
  import opened Text

  datatype Settings = Settings(
    modelProvider: string,
    ollamaModel: string,
    ollamaBaseUrl: string,
    openaiModel: string,
    geminiModel: string)

  /** What `get_model` builds: a Google model, an OpenAI-compatible chat
      model on an Ollama endpoint, or an OpenAI model named by string. */
  datatype LlmModel =
    | Google(model: string)
    | OllamaChat(model: string, baseUrl: string)
    | OpenAIName(name: string)

  /** `os.getenv(name, default)`. */
  function GetEnv(env: map<string, string>, name: string, default: string): (v: string)
    ensures name in env ==> v == env[name]
    ensures name !in env ==> v == default
  {
    if name in env then env[name] else default
  }

  /** The class attributes, read when the module is loaded; the provider
      is lower-cased there. */
  function LoadSettings(env: map<string, string>): (s: Settings)
    ensures s.modelProvider == Lower(GetEnv(env, "MODEL_PROVIDER", "ollama"))
    ensures s.ollamaBaseUrl == GetEnv(env, "OLLAMA_BASE_URL", "http://localhost:11434/v1")
    ensures env == map[] ==>
              s == Settings("ollama", "llama3.2", "http://localhost:11434/v1", "gpt-4o", "gemini-2.5-flash")
  {
    Settings(
      Lower(GetEnv(env, "MODEL_PROVIDER", "ollama")),
      GetEnv(env, "OLLAMA_MODEL", "llama3.2"),
      GetEnv(env, "OLLAMA_BASE_URL", "http://localhost:11434/v1"),
      GetEnv(env, "OPENAI_MODEL", "gpt-4o"),
      GetEnv(env, "GEMINI_MODEL", "gemini-2.5-flash"))
  }

  /** `(override_provider or MODEL_PROVIDER).lower()`: an absent or empty
      override falls back to the configured provider. */
  function Provider(s: Settings, overrideProvider: Option<string>): (p: string)
    ensures overrideProvider.Some? && overrideProvider.value != "" ==> p == Lower(overrideProvider.value)
    ensures overrideProvider.None? || overrideProvider.value == "" ==> p == Lower(s.modelProvider)
  {
    if overrideProvider.Some? && overrideProvider.value != "" then Lower(overrideProvider.value)
    else Lower(s.modelProvider)
  }

  /** The URL needs the "/v1" suffix: it names ollama.com, in any case, and
      does not already end in "/v1". */
  predicate NeedsSuffix(url: string) {
    Contains(Lower(url), "ollama.com") && !EndsWith(url, "/v1")
  }

  /** The Ollama base URL as handed to the provider. */
  function NormalizeBaseUrl(url: string): (r: string)
    ensures !NeedsSuffix(url) ==> r == url
    ensures NeedsSuffix(url) ==> EndsWith(r, "/v1") && r[..|r| - 3] == RStrip(url, '/')
  {
    if NeedsSuffix(url) then RStrip(url, '/') + "/v1" else url
  }

  /** `get_model`. */
  function GetModel(s: Settings, overrideProvider: Option<string>): (m: LlmModel)
    ensures var p := Provider(s, overrideProvider);
            (p == "ollama" <==> m.OllamaChat?) && (p == "openai" <==> m.OpenAIName?)
    ensures m.Google? ==> m.model == s.geminiModel
    ensures m.OllamaChat? ==> m == OllamaChat(s.ollamaModel, NormalizeBaseUrl(s.ollamaBaseUrl))
    ensures m.OpenAIName? ==> m.name == "openai:" + s.openaiModel
  {
    var p := Provider(s, overrideProvider);
    if p == "gemini" || p == "google" then Google(s.geminiModel)
    else if p == "ollama" then OllamaChat(s.ollamaModel, NormalizeBaseUrl(s.ollamaBaseUrl))
    else if p == "openai" then OpenAIName("openai:" + s.openaiModel)
    else Google(s.geminiModel)
  }

  // ----- Properties -----

  /** Every provider other than "ollama" and "openai" gets the Google
      model, whether it names Google or nothing known. */
  lemma GoogleFallback(s: Settings, overrideProvider: Option<string>)
    requires Provider(s, overrideProvider) != "ollama" && Provider(s, overrideProvider) != "openai"
    ensures GetModel(s, overrideProvider) == Google(s.geminiModel)
  {
  }

  /** A non-empty override decides the model alone. */
  lemma OverrideWins(s: Settings, t: Settings, name: string)
    requires name != ""
    requires s.geminiModel == t.geminiModel && s.ollamaModel == t.ollamaModel
    requires s.ollamaBaseUrl == t.ollamaBaseUrl && s.openaiModel == t.openaiModel
    ensures GetModel(s, Some(name)) == GetModel(t, Some(name))
  {
  }

  /** Provider names are matched in any case. */
  lemma ProviderCaseInsensitive(s: Settings, name: string)
    requires name != ""
    ensures GetModel(s, Some(Lower(name))) == GetModel(s, Some(name))
  {
    LowerIdempotent(name);
    assert Lower(name) != "";
  }

  /** Normalising twice changes nothing more. */
  lemma NormalizeIdempotent(url: string)
    ensures NormalizeBaseUrl(NormalizeBaseUrl(url)) == NormalizeBaseUrl(url)
  {
  }

  /** After normalisation a URL that names ollama.com ends in "/v1". */
  lemma NormalizedOllamaEndsInV1(url: string)
    requires Contains(Lower(url), "ollama.com")
    ensures EndsWith(NormalizeBaseUrl(url), "/v1")
  {
  }

  /** Any other URL is passed through untouched. */
  lemma OtherUrlsUntouched(url: string)
    requires !Contains(Lower(url), "ollama.com")
    ensures NormalizeBaseUrl(url) == url
  {
  }

  /** Every URL on the https://ollama.com host names ollama.com. */
  lemma OllamaHost(rest: string)
    ensures Contains("https://ollama.com" + rest, "ollama.com")
  {
    var h := "https://ollama.com";
    var u := h + rest;
    assert h[8] == 'o' && h[9] == 'l' && h[10] == 'l' && h[11] == 'a' && h[12] == 'm';
    assert h[13] == 'a' && h[14] == '.' && h[15] == 'c' && h[16] == 'o' && h[17] == 'm';
    assert u[8..18] == h[8..18] == "ollama.com";
    ContainsAt(u, "ollama.com", 8);
  }

  /** The suffix test runs before the strip, so a trailing slash after
      "/v1" yields a doubled "/v1/v1". */
  lemma TrailingSlashDoublesSuffix()
    ensures NormalizeBaseUrl("https://ollama.com/v1/") == "https://ollama.com/v1/v1"
  {
    var u := "https://ollama.com/v1/";
    LowerOfLower(u);
    OllamaHost("/v1/");
    assert u == "https://ollama.com" + "/v1/";
    assert u[|u| - 3..] == "v1/";
    assert RStrip(u, '/') == "https://ollama.com/v1" by {
      assert u[..|u| - 1] == "https://ollama.com/v1";
    }
  }

  /** A bare ollama.com URL gains the suffix. */
  lemma BareOllamaGainsSuffix()
    ensures NormalizeBaseUrl("https://ollama.com") == "https://ollama.com/v1"
  {
    var u := "https://ollama.com";
    LowerOfLower(u);
    OllamaHost("");
    assert u == "https://ollama.com" + "";
    assert u[|u| - 3..] == "com";
  }

  /** With no environment at all the provider is Ollama on the local
      endpoint, which already ends in "/v1". */
  lemma DefaultModel()
    ensures GetModel(LoadSettings(map[]), None) == OllamaChat("llama3.2", "http://localhost:11434/v1")
  {
    var u := "http://localhost:11434/v1";
    assert u[|u| - 3..] == "/v1";
    LowerOfLower("ollama");
  }
}
