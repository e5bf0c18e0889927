/** The `POST /api/generate` handler of src/app/api/generate/route.ts, as a
    function of the parsed request body, the provider configuration and what
    the providers reply to each of the two prompts. The HTTP response is a
    status and a JSON envelope; the prompts handed to `generateText` are
    returned beside it, in call order. */
module Route {
  import opened Js
  import opened Llm

  /** A property of the JSON body: absent (`undefined`), a string, or any
      other JSON value (number, boolean, null, array, object). */
  datatype Field = Absent | Str(s: string) | NonString

  /** A thrown value: an `Error` carries a message, anything else does not. */
  datatype Thrown = ErrorObject(message: string) | OtherValue

  /** The outcome of `await request.json()` and destructuring it: it throws
      (a body that is not JSON, or the JSON value `null`, whose destructuring
      throws a `TypeError`), or it yields the two fields read from it (a JSON
      value without such properties yields `Absent`). */
  datatype RequestBody = Unparsable(thrown: Thrown) | Fields(deckText: Field, vcPersona: Field)

  /** The JSON envelope the handler returns, which the page reads as its
      `GenerateResponse`. A `None` field is left out of the JSON. */
  datatype Envelope = Envelope(
    success: bool,
    summary: Option<string>,
    brief: Option<string>,
    provider: Option<string>,
    error: Option<string>)

  datatype Response = Response(status: int, body: Envelope)

  /** The handler's response and the prompts it passed to `generateText`, in order. */
  datatype Exchange = Exchange(response: Response, prompts: seq<string>)

  const InvalidDeckTextMessage: string := "Missing or invalid deckText field"
  const UnexpectedErrorMessage: string := "An unexpected error occurred"
  const DefaultPersona: string := "VC investor"

  function Failure(message: string): Envelope {
    Envelope(false, None, None, None, Some(message))
  }

  /** The invariant of every envelope the handler builds: a success carries
      summary, brief and provider and no error; a failure carries an error
      and nothing else. */
  predicate WellFormed(e: Envelope) {
    if e.success then
      e.summary.Some? && e.brief.Some? && e.provider.Some? && e.error.None?
    else
      e.error.Some? && e.summary.None? && e.brief.None? && e.provider.None?
  }

  /** The validation guard: `deckText` is a string that is not blank. */
  predicate ValidDeckText(f: Field) {
    f.Str? && Trim(f.s) != ""
  }

  /** The message of the error response for a thrown value. */
  function ErrorMessage(t: Thrown): (m: string)
    ensures t.ErrorObject? ==> m == t.message
    ensures t.OtherValue? ==> m == UnexpectedErrorMessage
  {
    match t
    case ErrorObject(msg) => msg
    case OtherValue => UnexpectedErrorMessage
  }

  /** The persona the brief is written for: the trimmed `vcPersona` when it is
      a string that is not blank, otherwise the default. It is never blank and
      always trimmed. */
  function ResolvePersona(f: Field): (persona: string)
    ensures persona != "" && Trim(persona) == persona
    ensures f.Str? && Trim(f.s) != "" ==> persona == Trim(f.s)
    ensures !(f.Str? && Trim(f.s) != "") ==> persona == DefaultPersona
  {
    if f.Str? && Trim(f.s) != "" then
      TrimIdempotent(f.s);
      Trim(f.s)
    else
      assert DefaultPersona[0] == 'V' && DefaultPersona[|DefaultPersona| - 1] == 'r';
      TrimOfPadded([], DefaultPersona, []);
      assert [] + DefaultPersona + [] == DefaultPersona;
      DefaultPersona
  }

  const SummarizeHead: string :=
    "Please summarize the following pitch deck text into exactly 5 clear and concise bullet points. Focus on the key business aspects:\n\nPitch Deck Text:\n"
  const SummarizeTail: string :=
    "\n\nFormat your response as:\n\U{2022} [Bullet point 1]\n\U{2022} [Bullet point 2]\n\U{2022} [Bullet point 3]\n\U{2022} [Bullet point 4]\n\U{2022} [Bullet point 5]"

  /** The first prompt: the fixed instructions with the deck text, as received
      and untrimmed, embedded between them. */
  function SummarizePrompt(deckText: string): string {
    SummarizeHead + deckText + SummarizeTail
  }

  /** The deck text sits, unchanged, between the fixed head and tail. */
  lemma SummarizePromptLayout(deckText: string)
    ensures var p := SummarizePrompt(deckText);
            && |p| == |SummarizeHead| + |deckText| + |SummarizeTail|
            && p[..|SummarizeHead|] == SummarizeHead
            && p[|SummarizeHead|..|SummarizeHead| + |deckText|] == deckText
            && p[|SummarizeHead| + |deckText|..] == SummarizeTail
  {
    ThreePartLayout(SummarizeHead, deckText, SummarizeTail);
  }

  /** Where the three parts of `x + y + z` lie. */
  lemma ThreePartLayout(x: string, y: string, z: string)
    ensures var p := x + y + z;
            && p[..|x|] == x
            && p[|x|..|x| + |y|] == y
            && p[|x| + |y|..] == z
  {
  }

  const BriefOpening: string := "You are a "
  const BriefIntro: string :=
    ". Based on the following pitch deck summary, generate a concise, one-page venture capital brief. The brief should be professional, analytical, and succinct.\n\nPitch Deck Summary:\n"
  const BriefSections: string :=
    "\n\nGenerate a comprehensive VC brief that includes:\n1. Executive Summary\n2. Market Opportunity Assessment\n3. Business Model Analysis\n4. Team Evaluation\n5. Risk Assessment\n6. Investment Recommendation\n\nKeep the brief concise but thorough, suitable for a one-page investment memo. Write from the perspective of the specified VC persona: "

  /** Appending text after a slice leaves the slice alone. */
  lemma SliceBeforeAppend(x: string, y: string, i: nat, j: nat)
    requires i <= j <= |x|
    ensures (x + y)[i..j] == x[i..j]
  {
  }

  /** The appended text sits right after what it was appended to. */
  lemma AppendedSlice(x: string, y: string)
    ensures (x + y)[|x|..|x| + |y|] == y
  {
  }

  /** Where the parts of a prompt shaped like the brief prompt lie, for any
      fixed texts around them. */
  lemma BriefLayout(opening: string, persona: string, intro: string, summary: string, sections: string)
    ensures var p := opening + persona + intro + summary + sections + persona + ".";
            && p[|opening|..|opening| + |persona|] == persona
            && p[|opening| + |persona| + |intro|..|opening| + |persona| + |intro| + |summary|] == summary
            && p[|p| - 1 - |persona|..|p| - 1] == persona
  {
    var x1 := opening + persona;
    var x2 := x1 + intro;
    var x3 := x2 + summary;
    var x4 := x3 + sections;
    var x5 := x4 + persona;
    var i, j := |opening|, |opening| + |persona|;
    AppendedSlice(opening, persona);
    SliceBeforeAppend(x1, intro, i, j);
    SliceBeforeAppend(x2, summary, i, j);
    SliceBeforeAppend(x3, sections, i, j);
    SliceBeforeAppend(x4, persona, i, j);
    SliceBeforeAppend(x5, ".", i, j);
    AppendedSlice(x2, summary);
    SliceBeforeAppend(x3, sections, |x2|, |x3|);
    SliceBeforeAppend(x4, persona, |x2|, |x3|);
    SliceBeforeAppend(x5, ".", |x2|, |x3|);
    AppendedSlice(x4, persona);
    SliceBeforeAppend(x5, ".", |x4|, |x5|);
  }

  /** The second prompt: the persona, the summary the first call produced,
      and the persona again, between fixed texts. */
  function BriefPrompt(persona: string, summary: string): string {
    BriefOpening + persona + BriefIntro + summary + BriefSections + persona + "."
  }

  /** The brief prompt names the persona at its start and again at its end,
      and embeds the summary unchanged. */
  lemma BriefPromptLayout(persona: string, summary: string)
    ensures var p := BriefPrompt(persona, summary);
            var at := |BriefOpening| + |persona| + |BriefIntro|;
            && |p| == |BriefOpening| + |persona| + |BriefIntro| + |summary| + |BriefSections| + |persona| + 1
            && p[|BriefOpening|..|BriefOpening| + |persona|] == persona
            && p[at..at + |summary|] == summary
            && p[|p| - 1 - |persona|..|p| - 1] == persona && p[|p| - 1] == '.'
  {
    BriefLayout(BriefOpening, persona, BriefIntro, summary, BriefSections);
  }

  /** `POST(request)`. */
  function Post(body: RequestBody, cfg: Config, summaryReplies: Replies, briefReplies: Replies): (x: Exchange)
    ensures WellFormed(x.response.body)
    ensures x.response.status in {200, 400, 500}
    ensures x.response.body.success <==> x.response.status == 200
    ensures |x.prompts| <= 2
    ensures x.response.status == 400 <==> body.Fields? && !ValidDeckText(body.deckText)
    ensures x.response.status == 400 ==> x.response.body == Failure(InvalidDeckTextMessage) && x.prompts == []
    ensures x.response.status == 200 ==> |x.prompts| == 2
  {
    match body
    case Unparsable(thrown) =>
      Exchange(Response(500, Failure(ErrorMessage(thrown))), [])
    case Fields(deckText, vcPersona) =>
      if !ValidDeckText(deckText) then
        Exchange(Response(400, Failure(InvalidDeckTextMessage)), [])
      else
        var persona := ResolvePersona(vcPersona);
        var summarizePrompt := SummarizePrompt(deckText.s);
        var first := GenerateText(cfg, summaryReplies);
        match first.result
        case GenFailed(m) =>
          Exchange(Response(500, Failure(ErrorMessage(ErrorObject(m)))), [summarizePrompt])
        case Generated(summary) =>
          var briefPrompt := BriefPrompt(persona, summary.content);
          var second := GenerateText(cfg, briefReplies);
          match second.result
          case GenFailed(m) =>
            Exchange(Response(500, Failure(ErrorMessage(ErrorObject(m)))), [summarizePrompt, briefPrompt])
          case Generated(brief) =>
            Exchange(
              Response(200, Envelope(true, Some(summary.content), Some(brief.content),
                                     Some(ProviderName(brief.provider)), None)),
              [summarizePrompt, briefPrompt])
  }

  /** The prompt determines the deck text: distinct deck texts give distinct
      summarise prompts. */
  lemma SummarizePromptInjective(a: string, b: string)
    requires SummarizePrompt(a) == SummarizePrompt(b)
    ensures a == b
  {
    SummarizePromptLayout(a);
    SummarizePromptLayout(b);
    var pa, pb := SummarizePrompt(a), SummarizePrompt(b);
    assert |a| == |b|;
    assert a == pa[|SummarizeHead|..|SummarizeHead| + |a|] == pb[|SummarizeHead|..|SummarizeHead| + |b|] == b;
  }

  /** A valid request runs the summarise call first, on the untrimmed deck
      text, and the brief call only after it succeeded, on a prompt holding
      the first call's content and the resolved persona. */
  lemma PostCallOrder(body: RequestBody, cfg: Config, summaryReplies: Replies, briefReplies: Replies)
    requires body.Fields? && ValidDeckText(body.deckText)
    ensures var x := Post(body, cfg, summaryReplies, briefReplies);
            && 1 <= |x.prompts|
            && x.prompts[0] == SummarizePrompt(body.deckText.s)
            && (|x.prompts| == 2 <==> GenerateText(cfg, summaryReplies).result.Generated?)
            && (|x.prompts| == 2 ==>
                  x.prompts[1] == BriefPrompt(ResolvePersona(body.vcPersona),
                                              GenerateText(cfg, summaryReplies).result.response.content))
  {
    var x := Post(body, cfg, summaryReplies, briefReplies);
    var first := GenerateText(cfg, summaryReplies);
    var p1 := SummarizePrompt(body.deckText.s);
    if first.result.Generated? {
      var p2 := BriefPrompt(ResolvePersona(body.vcPersona), first.result.response.content);
      assert x.prompts == [p1, p2];
    } else {
      assert x.prompts == [p1];
    }
  }

  /** A success reports the first call's text as summary, the second call's
      text as brief and the second call's provider; it happens exactly when
      the body is valid and both calls generate text. */
  lemma PostSuccess(body: RequestBody, cfg: Config, summaryReplies: Replies, briefReplies: Replies)
    ensures var x := Post(body, cfg, summaryReplies, briefReplies);
            var first := GenerateText(cfg, summaryReplies).result;
            var second := GenerateText(cfg, briefReplies).result;
            && (x.response.body.success <==>
                  body.Fields? && ValidDeckText(body.deckText) && first.Generated? && second.Generated?)
            && (x.response.body.success ==>
                  && x.response.body.summary == Some(first.response.content)
                  && x.response.body.brief == Some(second.response.content)
                  && x.response.body.provider == Some(ProviderName(second.response.provider))
                  && first.response.content != "" && second.response.content != "")
  {
  }

  /** Every failure after validation is a 500 with no summary or brief; its
      message is the thrown `Error`'s, the generic text for a non-`Error`, or
      the message of the `generateText` call that failed (the summary of a
      successful first call is then dropped). */
  lemma PostFailure(body: RequestBody, cfg: Config, summaryReplies: Replies, briefReplies: Replies)
    requires !(body.Fields? && !ValidDeckText(body.deckText))
    ensures var x := Post(body, cfg, summaryReplies, briefReplies);
            var first := GenerateText(cfg, summaryReplies).result;
            var second := GenerateText(cfg, briefReplies).result;
            && (!x.response.body.success ==> x.response.status == 500)
            && (body.Unparsable? ==> x.response.body == Failure(ErrorMessage(body.thrown)))
            && (body.Fields? && first.GenFailed? ==> x.response.body == Failure(first.message))
            && (body.Fields? && first.Generated? && second.GenFailed? ==>
                  x.response.body == Failure(second.message))
  {
  }

  /** The fallback seen from the handler: OpenAI fails on the brief prompt and Gemini answers,
      so the response names Gemini as its provider. */
  lemma BriefFallbackReportsGemini(body: RequestBody, cfg: Config, summaryReplies: Replies, briefReplies: Replies)
    requires body.Fields? && ValidDeckText(body.deckText)
    requires GenerateText(cfg, summaryReplies).result.Generated?
    requires cfg.geminiKey && !Usable(briefReplies.openai) && Usable(briefReplies.gemini)
    ensures Post(body, cfg, summaryReplies, briefReplies).response.body.provider == Some("gemini")
    ensures Post(body, cfg, summaryReplies, briefReplies).response.body.brief == Some(briefReplies.gemini.text)
  {
    GeminiDecides(cfg, briefReplies);
    PostSuccess(body, cfg, summaryReplies, briefReplies);
  }
}
