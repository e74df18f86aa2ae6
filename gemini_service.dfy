/** The service layer (services/geminiService.ts): every persona is the same
    hosted model called with a persona-specific system instruction. This
    module holds the two persona lookups, the assembly of the outgoing
    requests, the fallback of the one-shot call and the chunk filter of the
    streaming call. The network client itself is not modelled: its answer is
    an input (a reply, or the chunks of a stream). */
module GeminiService {
  import opened Types
  import opened Text

  const BaseInstruction := "Отвечай строго на русском языке."

  /* Each persona's instruction is the base instruction followed by the
     persona's own text; only the opening clause of each text is kept. */

  const GrokInstruction := BaseInstruction + " ВАЖНО: ТЫ - GROK (ГРОК), ИИ от компании xAI."
  const ChatGptInstruction := BaseInstruction + " ВАЖНО: ТЫ - CHATGPT (версия GPT-4o)."
  const DeepSeekInstruction := BaseInstruction + " ВАЖНО: ТЫ - DEEPSEEK R1."
  const GeminiInstruction := BaseInstruction + " Ты - Gemini."

  const ProModel := "gemini-3-pro-preview"
  const FlashModel := "gemini-2.5-flash"

  /** What the one-shot call returns when the reply carries no text. */
  const FallbackText := "Не удалось сгенерировать ответ."

  /** The system instruction for a persona, looked up by the persona's
      run-time code; any code that is not one of the named personas falls to
      the Gemini text. Every instruction opens with the base instruction. */
  function GetSystemInstruction(modelId: string): (r: string)
    ensures BaseInstruction <= r
  {
    if modelId == ModelId.Grok.Code() then GrokInstruction
    else if modelId == ModelId.ChatGpt.Code() then ChatGptInstruction
    else if modelId == ModelId.DeepSeek.Code() then DeepSeekInstruction
    else GeminiInstruction
  }

  /** The underlying model name: the preview model for the Gemini persona,
      the fast model for every other code, the unknown ones included. */
  function GetModelName(modelId: string): (r: string)
    ensures r == ProModel <==> modelId == ModelId.Gemini3.Code()
    ensures r == FlashModel <==> modelId != ModelId.Gemini3.Code()
  {
    if modelId == ModelId.Gemini3.Code() then ProModel else FlashModel
  }

  /** The four personas are told four different things. */
  lemma InstructionsDistinct(a: ModelId, b: ModelId)
    ensures a != b ==> GetSystemInstruction(a.Code()) != GetSystemInstruction(b.Code())
  {
  }

  /** The Gemini persona shares its instruction with the default branch: a
      code outside the enumeration is answered as Gemini. */
  lemma UnknownCodeIsGemini(modelId: string)
    requires forall m: ModelId :: m.Code() != modelId
    ensures GetSystemInstruction(modelId) == GetSystemInstruction(ModelId.Gemini3.Code())
    ensures GetModelName(modelId) == FlashModel
  {
    assert ModelId.Grok.Code() != modelId;
    assert ModelId.ChatGpt.Code() != modelId;
    assert ModelId.DeepSeek.Code() != modelId;
    assert ModelId.Gemini3.Code() != modelId;
  }

  /** One turn of the history format the API takes: a role ("user" or
      "model") and the text parts of the turn. */
  datatype Part = Part(text: string)
  datatype Content = Content(role: string, parts: seq<Part>)

  /** The turn that carries a new prompt: a `user` turn whose one part is
      the prompt, unchanged. */
  function UserTurn(prompt: string): (c: Content)
    ensures c.role == "user" && |c.parts| == 1 && c.parts[0].text == prompt
  {
    Content("user", [Part(prompt)])
  }

  /** The one-shot request `models.generateContent` receives. */
  datatype ContentRequest = ContentRequest(model: string, contents: seq<Content>, systemInstruction: string)

  /** The streaming request: the chat session `chats.create` opens, and the
      message `sendMessageStream` sends on it. */
  datatype ChatRequest = ChatRequest(model: string, history: seq<Content>, systemInstruction: string, message: string)

  /** The one-shot request: the given history followed by exactly one user
      turn holding the prompt. */
  function GenerateContentRequest(prompt: string, modelId: ModelId, history: seq<Content>): (q: ContentRequest)
    ensures |q.contents| == |history| + 1
    ensures q.contents[..|history|] == history
    ensures q.contents[|history|] == UserTurn(prompt)
    ensures q.model == GetModelName(modelId.Code())
    ensures q.systemInstruction == GetSystemInstruction(modelId.Code())
  {
    ContentRequest(GetModelName(modelId.Code()),
                   history + [UserTurn(prompt)],
                   GetSystemInstruction(modelId.Code()))
  }

  /** The streaming request: the chat opens with the persona's model and
      instruction and the given history, unchanged, and the prompt is sent
      as its message. */
  function StreamRequest(prompt: string, modelId: ModelId, history: seq<Content>): (c: ChatRequest)
    ensures c.history == history && c.message == prompt
    ensures c.model == ProModel <==> modelId == Gemini3
    ensures BaseInstruction <= c.systemInstruction
    ensures c.model == GetModelName(modelId.Code())
    ensures c.systemInstruction == GetSystemInstruction(modelId.Code())
  {
    ChatRequest(GetModelName(modelId.Code()), history,
                GetSystemInstruction(modelId.Code()), prompt)
  }

  /** The model and instruction of a request depend on the persona only, not
      on the prompt or the history. */
  lemma PersonaOnlyDecidesConfig(p1: string, h1: seq<Content>, p2: string, h2: seq<Content>, m: ModelId)
    ensures GenerateContentRequest(p1, m, h1).model == GenerateContentRequest(p2, m, h2).model
    ensures GenerateContentRequest(p1, m, h1).systemInstruction == GenerateContentRequest(p2, m, h2).systemInstruction
    ensures StreamRequest(p1, m, h1).model == StreamRequest(p2, m, h2).model
    ensures StreamRequest(p1, m, h1).systemInstruction == StreamRequest(p2, m, h2).systemInstruction
  {
  }

  /** Both calls put the same conversation on the wire: the chat session's
      history followed by its message is the one-shot call's contents, under
      the same model and instruction. */
  lemma StreamAndOneShotAgree(prompt: string, m: ModelId, history: seq<Content>)
    ensures var q := GenerateContentRequest(prompt, m, history);
            var c := StreamRequest(prompt, m, history);
            q.contents == c.history + [UserTurn(c.message)] &&
            q.model == c.model && q.systemInstruction == c.systemInstruction
  {
  }

  /** Whatever the client threw. */
  datatype ApiError = ApiError(message: string)

  /** `generateResponse`: sends the assembled request to `api` (the hosted
      model, a parameter here) and returns the reply's text, or the fallback
      text when the reply has no text or an empty one; an error from the call
      is thrown on unchanged. The result is never the empty string. */
  function GenerateResponse(prompt: string, modelId: ModelId, history: seq<Content>,
                            api: ContentRequest -> Result<Option<string>, ApiError>): (r: Result<string, ApiError>)
    ensures var reply := api(GenerateContentRequest(prompt, modelId, history));
            match reply
            case Failure(e) => r == Failure(e)
            case Success(text) =>
              r.Success? && r.value != "" &&
              (r.value == FallbackText <==> text == None || text == Some("") || text == Some(FallbackText)) &&
              (text.Some? && text.value != "" ==> r.value == text.value)
  {
    match api(GenerateContentRequest(prompt, modelId, history))
    case Failure(e) => Failure(e)
    case Success(text) =>
      if text.Some? && text.value != "" then Success(text.value) else Success(FallbackText)
  }

  /** A chunk's text, absent text read as empty. */
  function TextOf(chunk: Option<string>): string {
    match chunk
    case None => ""
    case Some(t) => t
  }

  /** The pieces the stream yields for the given chunks: each chunk's text
      that is present and non-empty, unmodified and in arrival order. */
  function NonEmptyTexts(chunks: seq<Option<string>>): (pieces: seq<string>)
    ensures |pieces| <= |chunks|
    ensures forall i :: 0 <= i < |pieces| ==> pieces[i] != "" && Some(pieces[i]) in chunks
  {
    if chunks == [] then []
    else
      var rest := NonEmptyTexts(chunks[1..]);
      assert forall x :: x in chunks[1..] ==> x in chunks;
      if chunks[0].Some? && chunks[0].value != "" then [chunks[0].value] + rest else rest
  }

  /** All chunk texts joined, absent ones counted as empty: what the caller
      would have built had nothing been filtered out. */
  function JoinedTexts(chunks: seq<Option<string>>): string {
    if chunks == [] then "" else TextOf(chunks[0]) + JoinedTexts(chunks[1..])
  }

  /** Filtering loses no text: the yielded pieces join to all chunk texts. */
  lemma {:induction false} NonEmptyTextsJoin(chunks: seq<Option<string>>)
    ensures Concat(NonEmptyTexts(chunks)) == JoinedTexts(chunks)
  {
    if chunks != [] {
      NonEmptyTextsJoin(chunks[1..]);
    }
  }

  /** The filter works chunk by chunk: the pieces for a split stream are the
      pieces of each part, in order. */
  lemma {:induction false} NonEmptyTextsSplit(a: seq<Option<string>>, b: seq<Option<string>>)
    ensures NonEmptyTexts(a + b) == NonEmptyTexts(a) + NonEmptyTexts(b)
  {
    if a == [] {
      assert [] + b == b;
    } else {
      assert (a + b)[1..] == a[1..] + b;
      NonEmptyTextsSplit(a[1..], b);
    }
  }

  /** `generateStreamResponse`: opens the chat with the persona's model and
      instruction and the given history, sends the prompt, and then, chunk by
      chunk as they arrive, yields each chunk's text when it is non-empty. */
  method GenerateStreamResponse(prompt: string, modelId: ModelId, history: seq<Content>,
                                chunks: seq<Option<string>>)
    returns (request: ChatRequest, yielded: seq<string>)
    ensures request == StreamRequest(prompt, modelId, history)
    ensures yielded == NonEmptyTexts(chunks)
  {
    request := StreamRequest(prompt, modelId, history);
    yielded := [];
    var i := 0;
    while i < |chunks|
      invariant 0 <= i <= |chunks|
      invariant yielded == NonEmptyTexts(chunks[..i])
    {
      var c := chunks[i];
      if c.Some? && c.value != "" {
        yielded := yielded + [c.value];
      }
      NonEmptyTextsSplit(chunks[..i], [c]);
      assert chunks[..i + 1] == chunks[..i] + [c];
      i := i + 1;
    }
    assert chunks[..i] == chunks;
  }
}
