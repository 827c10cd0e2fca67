/**
 * The metadata server's AI-provider configuration: which providers the
 * environment makes available, how a provider is selected by name (falling back
 * to offline on any failure), and how an image analysis is dispatched to the
 * current provider's analyzer with the offline analysis as fallback.
 *
 * The process environment is a map; the connection tests and the analyzers'
 * outcomes are parameters. The keys handed to the OpenAI and Gemini client
 * libraries are recorded as fields.
 */
module Backend {
  import opened Wrappers

  datatype AIProvider = OpenAI | Gemini | Offline

  /** The enum's value. */
  function ProviderValue(p: AIProvider): (r: string)
    ensures r in {"openai", "gemini", "offline"}
  {
    match p
    case OpenAI => "openai"
    case Gemini => "gemini"
    case Offline => "offline"
  }

  datatype AIConfig = AIConfig(provider: AIProvider, apiKey: string, model: string)

  /** The configuration every failure falls back to. */
  const OfflineConfig := AIConfig(Offline, "", "offline")

  const DefaultOpenAIModel := "gpt-4-vision-preview"
  const DefaultGeminiModel := "gemini-pro-vision"

  const OpenAIKeyVar := "OPENAI_API_KEY"
  const GeminiKeyVar := "GEMINI_API_KEY"
  const GoogleKeyVar := "GOOGLE_API_KEY"
  /** The variable `set_ai_provider` writes an explicit OpenAI key to. */
  const OpenAIKeyWrittenVar := "OPEN_AI_KEY"

  // ---------------------------------------------------------------- Python values

  /** Truthiness of an optional string: `None` and `""` are falsy. */
  predicate PyTruthy(s: Option<string>)
  {
    s.Some? && s.value != ""
  }

  /** `a or b` on optional strings. */
  function Or(a: Option<string>, b: Option<string>): (r: Option<string>)
    ensures PyTruthy(a) ==> r == a
    ensures !PyTruthy(a) ==> r == b
  {
    if PyTruthy(a) then a else b
  }

  /** `a or fallback` where the fallback is a string. */
  function OrElse(a: Option<string>, fallback: string): (r: string)
    ensures PyTruthy(a) ==> r == a.value
    ensures !PyTruthy(a) ==> r == fallback
  {
    if PyTruthy(a) then a.value else fallback
  }

  /** `os.getenv(name, '')`. */
  function GetEnvOrEmpty(env: map<string, string>, name: string): (r: string)
    ensures name in env ==> r == env[name]
    ensures name !in env ==> r == ""
  {
    if name in env then env[name] else ""
  }

  /** `os.getenv(name)`. */
  function GetEnv(env: map<string, string>, name: string): (r: Option<string>)
    ensures r.Some? <==> name in env
    ensures r.Some? ==> r.value == env[name]
  {
    if name in env then Some(env[name]) else None
  }

  function LowerChar(c: char): char
  {
    if 'A' <= c <= 'Z' then (c as int + 32) as char else c
  }

  /** `str.lower()` on the letters that decide a match against a lower-case ASCII name. */
  function Lower(s: string): (r: string)
    ensures |r| == |s|
    ensures forall i :: 0 <= i < |s| ==> r[i] == LowerChar(s[i])
  {
    seq(|s|, i requires 0 <= i < |s| => LowerChar(s[i]))
  }

  lemma LowerIdempotent(s: string)
    ensures Lower(Lower(s)) == Lower(s)
  {
  }

  /** The provider a name selects, compared case-insensitively; `None` for an unsupported name. */
  function ParseProvider(name: string): (r: Option<AIProvider>)
    ensures r.Some? <==> Lower(name) in {"openai", "gemini", "offline"}
    ensures r.Some? ==> ProviderValue(r.value) == Lower(name)
  {
    var n := Lower(name);
    if n == "openai" then Some(OpenAI)
    else if n == "gemini" then Some(Gemini)
    else if n == "offline" then Some(Offline)
    else None
  }

  /** Every enum value selects its own provider. */
  lemma ParseProviderValue(p: AIProvider)
    ensures ParseProvider(ProviderValue(p)) == Some(p)
  {
    var v := ProviderValue(p);
    assert Lower(v) == v;
  }

  /** Selection does not depend on letter case. */
  lemma ParseProviderCaseInsensitive(name: string)
    ensures ParseProvider(name) == ParseProvider(Lower(name))
  {
    LowerIdempotent(name);
  }

  // ---------------------------------------------------------------- available providers

  /** The Gemini key `setup_ai_providers` reads: GEMINI_API_KEY, or GOOGLE_API_KEY when that is falsy. */
  function GeminiKey(env: map<string, string>): Option<string>
  {
    Or(GetEnv(env, GeminiKeyVar), GetEnv(env, GoogleKeyVar))
  }

  /** The list `setup_ai_providers` builds. */
  function ProvidersFor(env: map<string, string>): (r: seq<AIProvider>)
    ensures 1 <= |r| <= 3
  {
    (if PyTruthy(GetEnv(env, OpenAIKeyVar)) then [OpenAI] else []) +
    (if PyTruthy(GeminiKey(env)) then [Gemini] else []) +
    [Offline]
  }

  /** Offline is always available, exactly once, and last. */
  lemma OfflineAlwaysLast(env: map<string, string>)
    ensures ProvidersFor(env)[|ProvidersFor(env)| - 1] == Offline
    ensures forall i :: 0 <= i < |ProvidersFor(env)| - 1 ==> ProvidersFor(env)[i] != Offline
  {
  }

  /** Each provider is available exactly when its key is set. */
  lemma AvailableIffKey(env: map<string, string>)
    ensures OpenAI in ProvidersFor(env) <==> PyTruthy(GetEnv(env, OpenAIKeyVar))
    ensures Gemini in ProvidersFor(env) <==>
            PyTruthy(GetEnv(env, GeminiKeyVar)) || PyTruthy(GetEnv(env, GoogleKeyVar))
    ensures Offline in ProvidersFor(env)
  {
  }

  /** The providers appear in the order OpenAI, Gemini, Offline, so the default is the best one available. */
  lemma ProvidersOrdered(env: map<string, string>)
    ensures ProvidersFor(env)[0] == (if OpenAI in ProvidersFor(env) then OpenAI
                                     else if Gemini in ProvidersFor(env) then Gemini
                                     else Offline)
    ensures forall i, j :: 0 <= i < j < |ProvidersFor(env)| ==> Rank(ProvidersFor(env)[i]) < Rank(ProvidersFor(env)[j])
  {
  }

  function Rank(p: AIProvider): nat
  {
    match p
    case OpenAI => 0
    case Gemini => 1
    case Offline => 2
  }

  // ---------------------------------------------------------------- analysis dispatch

  /** What each analyzer would do on this image: OpenAI and Gemini may raise, the offline one answers. */
  datatype AnalyzerOutcomes = AnalyzerOutcomes(openai: Result<string>, gemini: Result<string>, offline: string)

  /** The analysis returned, and the analyzers called, in order. */
  datatype AnalysisRun = AnalysisRun(result: string, called: seq<AIProvider>)

  function Outcome(p: AIProvider, o: AnalyzerOutcomes): Result<string>
  {
    match p
    case OpenAI => o.openai
    case Gemini => o.gemini
    case Offline => Ok(o.offline)
  }

  /**
   * `analyze_image_with_ai`: the current provider's analyzer is called first; if
   * it raises, the offline analyzer is called and its analysis returned.
   */
  function AnalyzeImageWithAI(config: AIConfig, o: AnalyzerOutcomes): (r: AnalysisRun)
    ensures 1 <= |r.called| <= 2 && r.called[0] == config.provider
    ensures Outcome(config.provider, o).Ok? ==>
              r.called == [config.provider] && r.result == Outcome(config.provider, o).value
    ensures Outcome(config.provider, o).Err? ==> r.called == [config.provider, Offline] && r.result == o.offline
  {
    match config.provider
    case OpenAI =>
      (match o.openai
       case Ok(v) => AnalysisRun(v, [OpenAI])
       case Err(_) => AnalysisRun(o.offline, [OpenAI, Offline]))
    case Gemini =>
      (match o.gemini
       case Ok(v) => AnalysisRun(v, [Gemini])
       case Err(_) => AnalysisRun(o.offline, [Gemini, Offline]))
    case Offline => AnalysisRun(o.offline, [Offline])
  }

  /** In offline mode only the offline analyzer runs; otherwise the other online analyzer never runs. */
  lemma AnalyzeCallsOnlyItsProvider(config: AIConfig, o: AnalyzerOutcomes)
    ensures config.provider == Offline ==> AnalyzeImageWithAI(config, o).called == [Offline]
    ensures config.provider == OpenAI ==> Gemini !in AnalyzeImageWithAI(config, o).called
    ensures config.provider == Gemini ==> OpenAI !in AnalyzeImageWithAI(config, o).called
    ensures Offline in AnalyzeImageWithAI(config, o).called ==> AnalyzeImageWithAI(config, o).result == o.offline
  {
  }

  // ---------------------------------------------------------------- the generator

  class MetadataGenerator {
    /** The process environment. */
    var env: map<string, string>
    var currentConfig: AIConfig
    var availableProviders: seq<AIProvider>
    /** `openai.api_key`. */
    var openaiKey: Option<string>
    /** The key last passed to `genai.configure`. */
    var geminiKey: Option<string>

    /** `__init__`: start offline with an empty key and model, then set the providers up. */
    constructor (env: map<string, string>)
      ensures this.env == env
      ensures availableProviders == ProvidersFor(env)
      ensures currentConfig == AIConfig(ProvidersFor(env)[0], "", "")
      ensures openaiKey == (if PyTruthy(GetEnv(env, OpenAIKeyVar)) then GetEnv(env, OpenAIKeyVar) else None)
      ensures geminiKey == (if PyTruthy(GeminiKey(env)) then GeminiKey(env) else None)
    {
      this.env := env;
      currentConfig := AIConfig(Offline, "", "");
      availableProviders := [];
      openaiKey := None;
      geminiKey := None;
      new;
      SetupAIProviders();
    }

    /** `setup_ai_providers`: rebuild the list from the environment and make its first entry the current provider. */
    method SetupAIProviders()
      modifies this`availableProviders, this`currentConfig, this`openaiKey, this`geminiKey
      ensures availableProviders == ProvidersFor(env)
      ensures currentConfig == old(currentConfig).(provider := ProvidersFor(env)[0])
      ensures PyTruthy(GetEnv(env, OpenAIKeyVar)) ==> openaiKey == GetEnv(env, OpenAIKeyVar)
      ensures !PyTruthy(GetEnv(env, OpenAIKeyVar)) ==> openaiKey == old(openaiKey)
      ensures PyTruthy(GeminiKey(env)) ==> geminiKey == GeminiKey(env)
      ensures !PyTruthy(GeminiKey(env)) ==> geminiKey == old(geminiKey)
    {
      availableProviders := [];
      var openAIKey := GetEnv(env, OpenAIKeyVar);
      if PyTruthy(openAIKey) {
        openaiKey := openAIKey;
        availableProviders := availableProviders + [OpenAI];
      }
      var geminiEnvKey := Or(GetEnv(env, GeminiKeyVar), GetEnv(env, GoogleKeyVar));
      if PyTruthy(geminiEnvKey) {
        geminiKey := geminiEnvKey;
        availableProviders := availableProviders + [Gemini];
      }
      availableProviders := availableProviders + [Offline];
      if |availableProviders| > 0 {
        currentConfig := currentConfig.(provider := availableProviders[0]);
      }
    }

    /**
     * `set_ai_provider`: select a provider by name. OpenAI and Gemini are kept only
     * when their connection test (`connectionOk`) passes; an unsupported name or a
     * failed test leaves the offline configuration and answers false.
     */
    method SetAIProvider(provider: string, apiKey: Option<string>, model: Option<string>, connectionOk: bool)
      returns (ok: bool)
      modifies this`env, this`currentConfig, this`openaiKey, this`geminiKey
      ensures !ok ==> currentConfig == OfflineConfig
      ensures ParseProvider(provider) == Some(Offline) ==> ok && currentConfig == OfflineConfig
      ensures ParseProvider(provider).None? ==> !ok && currentConfig == OfflineConfig
      ensures ParseProvider(provider) == Some(OpenAI) ==> ok == connectionOk
      ensures ParseProvider(provider) == Some(OpenAI) && ok ==>
        currentConfig == AIConfig(OpenAI, OrElse(apiKey, GetEnvOrEmpty(old(env), OpenAIKeyVar)),
                                  OrElse(model, DefaultOpenAIModel))
      ensures ParseProvider(provider) == Some(Gemini) ==> ok == connectionOk
      ensures ParseProvider(provider) == Some(Gemini) && ok ==>
        currentConfig == AIConfig(Gemini, OrElse(apiKey, GetEnvOrEmpty(old(env), GeminiKeyVar)),
                                  OrElse(model, DefaultGeminiModel))
      ensures ParseProvider(provider) == Some(OpenAI) && PyTruthy(apiKey) ==>
        env == old(env)[OpenAIKeyWrittenVar := apiKey.value] && openaiKey == apiKey
      ensures ParseProvider(provider) == Some(Gemini) && PyTruthy(apiKey) ==>
        env == old(env)[GeminiKeyVar := apiKey.value] && geminiKey == apiKey
      ensures !(ParseProvider(provider) in {Some(OpenAI), Some(Gemini)} && PyTruthy(apiKey)) ==>
        env == old(env) && openaiKey == old(openaiKey) && geminiKey == old(geminiKey)
    {
      var name := Lower(provider);
      if name == "openai" {
        if PyTruthy(apiKey) {
          openaiKey := apiKey;
          env := env[OpenAIKeyWrittenVar := apiKey.value];
        }
        currentConfig := AIConfig(OpenAI, OrElse(apiKey, GetEnvOrEmpty(env, OpenAIKeyVar)), OrElse(model, DefaultOpenAIModel));
        if connectionOk {
          return true;
        }
        // raise Exception('Invalid OpenAI API key')
      } else if name == "gemini" {
        if PyTruthy(apiKey) {
          geminiKey := apiKey;
          env := env[GeminiKeyVar := apiKey.value];
        }
        currentConfig := AIConfig(Gemini, OrElse(apiKey, GetEnvOrEmpty(env, GeminiKeyVar)), OrElse(model, DefaultGeminiModel));
        if connectionOk {
          return true;
        }
        // raise Exception('Invalid Gemini API key')
      } else if name == "offline" {
        currentConfig := OfflineConfig;
        return true;
      }
      // raise Exception('Unsupported AI Provider'), or one of the two above: fall back to offline
      currentConfig := OfflineConfig;
      return false;
    }

    /** `analyze_image_with_ai`, on the current configuration. */
    function Analyze(o: AnalyzerOutcomes): (r: AnalysisRun)
      reads this
      ensures |r.called| > 0 && r.called[0] == currentConfig.provider
      ensures r.result == (if Outcome(currentConfig.provider, o).Ok? then Outcome(currentConfig.provider, o).value
                           else o.offline)
    {
      AnalyzeImageWithAI(currentConfig, o)
    }
  }

  /** After a failed selection the next analysis runs only the offline analyzer. */
  lemma FailedSelectionAnalysesOffline(config: AIConfig, o: AnalyzerOutcomes)
    requires config == OfflineConfig
    ensures AnalyzeImageWithAI(config, o) == AnalysisRun(o.offline, [Offline])
  {
  }
}
