/** The text-generation client of src/lib/llm.ts: try OpenAI when its key is
    set, fall back to Gemini when its key is set, and otherwise fail.
    The SDK calls are not modelled; what each provider would do with the
    prompt is an input (`Replies`), and which keys are set is a `Config`. */
module Llm {
  import opened Js

  datatype Provider = OpenAI | Gemini

  /** The `provider` tag of an `LLMResponse`. */
  function ProviderName(p: Provider): string {
    match p
    case OpenAI => "openai"
    case Gemini => "gemini"
  }

  /** Which API keys the process environment holds. */
  datatype Config = Config(openaiKey: bool, geminiKey: bool)

  /** What one provider call does: it throws (a transport or API error, or the
      response text accessor throwing), or it returns text. Missing content
      (`choices[0]?.message?.content` undefined or null) is `Returned("")`:
      the source treats both as falsy. */
  datatype Reply = Raised | Returned(text: string)

  /** The replies the two providers would give to one prompt, if called. */
  datatype Replies = Replies(openai: Reply, gemini: Reply)

  datatype LlmResponse = LlmResponse(content: string, provider: Provider)

  /** A resolved `generateText` promise, or the message of the `Error` it rejects with. */
  datatype GenResult = Generated(response: LlmResponse) | GenFailed(message: string)

  /** The outcome of one `generateText` call together with the providers it
      invoked, in the order it invoked them. */
  datatype Generation = Generation(result: GenResult, consulted: seq<Provider>)

  const GeminiFailedMessage: string := "Failed to generate content with Gemini"
  const NoKeysMessage: string :=
    "No API keys configured. Please set OPENAI_API_KEY or GEMINI_API_KEY environment variables."

  /** A reply the source accepts: returned and truthy, that is non-empty. */
  predicate Usable(r: Reply) {
    r.Returned? && r.text != ""
  }

  /** The configured providers in priority order: OpenAI before Gemini. */
  function Configured(cfg: Config): (order: seq<Provider>)
    ensures |order| <= 2
    ensures (OpenAI in order) == cfg.openaiKey && (Gemini in order) == cfg.geminiKey
    ensures |order| == 2 ==> order == [OpenAI, Gemini]
  {
    (if cfg.openaiKey then [OpenAI] else []) + (if cfg.geminiKey then [Gemini] else [])
  }

  function ReplyOf(replies: Replies, p: Provider): Reply {
    match p
    case OpenAI => replies.openai
    case Gemini => replies.gemini
  }

  predicate IsPrefix<T(==)>(xs: seq<T>, ys: seq<T>) {
    |xs| <= |ys| && xs == ys[..|xs|]
  }

  /** `generateText(prompt)`. Each configured provider is invoked at most once,
      in priority order; a success carries non-empty text from the provider
      invoked last; a failure has tried every configured provider and reports
      one of the two fixed messages. */
  function GenerateText(cfg: Config, replies: Replies): (g: Generation)
    ensures IsPrefix(g.consulted, Configured(cfg))
    ensures g.result.Generated? ==>
              && g.result.response.content != ""
              && g.consulted != []
              && g.consulted[|g.consulted| - 1] == g.result.response.provider
              && Usable(ReplyOf(replies, g.result.response.provider))
              && g.result.response.content == ReplyOf(replies, g.result.response.provider).text
    ensures g.result.GenFailed? ==>
              && g.consulted == Configured(cfg)
              && g.result.message == (if cfg.geminiKey then GeminiFailedMessage else NoKeysMessage)
  {
    var tried := if cfg.openaiKey then [OpenAI] else [];
    if cfg.openaiKey && Usable(replies.openai) then
      Generation(Generated(LlmResponse(replies.openai.text, OpenAI)), tried)
    else if cfg.geminiKey then
      if Usable(replies.gemini) then
        Generation(Generated(LlmResponse(replies.gemini.text, Gemini)), tried + [Gemini])
      else
        Generation(GenFailed(GeminiFailedMessage), tried + [Gemini])
    else
      Generation(GenFailed(NoKeysMessage), tried)
  }

  /** Reference definition of the fallback strategy: the first provider in
      `order` whose reply is usable, if any. */
  function FirstUsable(order: seq<Provider>, replies: Replies): (r: Option<LlmResponse>)
    ensures r.Some? ==> r.value.provider in order && Usable(ReplyOf(replies, r.value.provider))
    ensures r.None? ==> forall p :: p in order ==> !Usable(ReplyOf(replies, p))
  {
    if order == [] then None
    else if Usable(ReplyOf(replies, order[0])) then
      Some(LlmResponse(ReplyOf(replies, order[0]).text, order[0]))
    else
      FirstUsable(order[1..], replies)
  }

  /** `generateText` is "return the first usable reply of the configured
      providers in priority order", and fails exactly when there is none. */
  lemma GenerateTextIsFirstUsable(cfg: Config, replies: Replies)
    ensures GenerateText(cfg, replies).result.Generated? <==> FirstUsable(Configured(cfg), replies).Some?
    ensures GenerateText(cfg, replies).result.Generated? ==>
              GenerateText(cfg, replies).result.response == FirstUsable(Configured(cfg), replies).value
  {
    var order := Configured(cfg);
    if cfg.openaiKey && !Usable(replies.openai) {
      assert order[1..] == (if cfg.geminiKey then [Gemini] else []);
    }
  }

  /** OpenAI answering with text wins outright; Gemini is never invoked. */
  lemma OpenAIFirst(cfg: Config, replies: Replies)
    requires cfg.openaiKey && Usable(replies.openai)
    ensures GenerateText(cfg, replies) ==
              Generation(Generated(LlmResponse(replies.openai.text, OpenAI)), [OpenAI])
  {
  }

  /** An OpenAI exception, missing or empty content, and an unset OpenAI key
      all lead to the same result: the Gemini branch decides alone. */
  lemma OpenAIFailureIsLikeAbsence(cfg: Config, replies: Replies)
    requires !(cfg.openaiKey && Usable(replies.openai))
    ensures GenerateText(cfg, replies).result == GenerateText(Config(false, cfg.geminiKey), replies).result
    ensures GenerateText(cfg, replies).consulted ==
              (if cfg.openaiKey then [OpenAI] else []) + GenerateText(Config(false, cfg.geminiKey), replies).consulted
  {
  }

  /** Once OpenAI is out, a usable Gemini reply gives provider `gemini` and any
      other Gemini reply gives the Gemini failure message. */
  lemma GeminiDecides(cfg: Config, replies: Replies)
    requires !(cfg.openaiKey && Usable(replies.openai)) && cfg.geminiKey
    ensures Usable(replies.gemini) ==>
              GenerateText(cfg, replies).result == Generated(LlmResponse(replies.gemini.text, Gemini))
    ensures !Usable(replies.gemini) ==>
              GenerateText(cfg, replies).result == GenFailed(GeminiFailedMessage)
  {
  }

  /** Without a Gemini key, a missing or failed OpenAI gives the "no API keys"
      error, even though an OpenAI key may be set. */
  lemma NoGeminiKeyAfterOpenAIFailure(cfg: Config, replies: Replies)
    requires !cfg.geminiKey && !(cfg.openaiKey && Usable(replies.openai))
    ensures GenerateText(cfg, replies).result == GenFailed(NoKeysMessage)
  {
  }

  const OpenAILabel: string := "OpenAI (gpt-4o-mini)"
  const GeminiLabel: string := "Gemini (gemini-1.5-flash)"

  function Label(p: Provider): string {
    match p
    case OpenAI => OpenAILabel
    case Gemini => GeminiLabel
  }

  /** `getAvailableProviders()`: one label per configured key, OpenAI first. */
  method GetAvailableProviders(cfg: Config) returns (providers: seq<string>)
    ensures |providers| == |Configured(cfg)| <= 2
    ensures forall i :: 0 <= i < |providers| ==> providers[i] == Label(Configured(cfg)[i])
    ensures (OpenAILabel in providers) == cfg.openaiKey
    ensures (GeminiLabel in providers) == cfg.geminiKey
  {
    providers := [];
    if cfg.openaiKey {
      providers := providers + [OpenAILabel];
    }
    if cfg.geminiKey {
      providers := providers + [GeminiLabel];
    }
  }

  /** With no provider available, `generateText` fails with the "no API keys"
      message whatever the providers would have replied. */
  lemma NoProvidersNoKeys(cfg: Config, replies: Replies)
    requires Configured(cfg) == []
    ensures GenerateText(cfg, replies) == Generation(GenFailed(NoKeysMessage), [])
  {
  }
}
