/**
 * The OpenRouter chat-completion client (`geminiService`): the system
 * prompt, the outgoing message list of `generateResponse` and
 * `analyzeImage`, and the strings returned in place of a reply.
 *
 * The HTTP exchange is an oracle: `ApiResult` says how the request
 * ended. What the model writes is never modelled; only the structure of
 * the request and the fixed fallbacks are.
 */
module GeminiService {
  import opened Wrappers
  import opened Text

  // ---------------------------------------------------------------------
  // Conversation history and request messages
  // ---------------------------------------------------------------------

  /** The two roles of `GeminiMessage`. */
  datatype TurnRole = UserTurn | ModelTurn

  /** A `GeminiMessage`: one turn of the conversation history. */
  datatype Turn = Turn(role: TurnRole, parts: string)

  /** The roles of the OpenAI-style request. */
  datatype Role = SystemRole | AssistantRole | UserRole

  /** One item of a multi-part user content. */
  datatype Part = TextPart(text: string) | ImageUrlPart(url: string)

  datatype Content = Plain(text: string) | Parts(parts: seq<Part>)

  /** One entry of the request's `messages`. */
  datatype RequestMessage = RequestMessage(role: Role, content: Content)

  /** How the `fetch` to the completion endpoint ended. */
  datatype ApiResult =
    | NetworkFailure(message: string)        // fetch rejected
    | HttpFailure(status: nat)               // !response.ok
    | MalformedBody                          // response.json() threw
    | Completed(content: Option<string>)     // choices?.[0]?.message?.content

  // ---------------------------------------------------------------------
  // buildSystemPrompt
  // ---------------------------------------------------------------------

  /** The fixed rules that open every system prompt. */
  const BasePrompt :=
    "You are Dr. Medixa — a concise, empathetic, and professional medical assistant. Follow these rules:\n"
    + "\n"
    + "1. Role & Objective: Provide clear, accurate, and actionable medical guidance.\n"
    + "2. Style: Professional yet warm. Be empathetic but brief—3–5 sentences max unless more detail is explicitly requested.\n"
    + "3. Safety: Highlight if symptoms are serious. Advise seeing a doctor when needed.\n"
    + "4. Language: Simple and direct. Avoid jargon—use bullet points for clarity.\n"
    + "5. Best Practices:\n"
    + "   - Start with a one-sentence summary.\n"
    + "   - Offer 1–2 recommended next steps.\n"
    + "   - Include a short note reinforcing that this does not replace professional medical care.\n"
    + "6. When uncertain: Say \"Not enough detail—please mention [missing info]\"."

  const ImageSentence := "The user has shared an image. " + "Acknowledge that you can see it."
  const VoiceSentence := "The user sent a voice message. " + "Acknowledge appropriately."

  /** The template: rules, a blank line, the image line, then the voice line. */
  function AssemblePrompt(rules: string, hasImage: bool, isVoiceMessage: bool): string
  {
    rules + "\n\n"
    + (if hasImage then ImageSentence else "")
    + "\n"
    + (if isVoiceMessage then VoiceSentence else "")
  }

  /** buildSystemPrompt: the rules, with each acknowledgement whose flag is set. */
  function BuildSystemPrompt(hasImage: bool, isVoiceMessage: bool): (r: string)
    ensures StartsWith(r, BasePrompt)
    ensures hasImage ==> Contains(r, ImageSentence)
    ensures isVoiceMessage ==> Contains(r, VoiceSentence)
  {
    ImageSlotFilledIffImage(BasePrompt, hasImage, isVoiceMessage);
    VoiceLineLastIffVoice(BasePrompt, hasImage, isVoiceMessage);
    AssemblePrompt(BasePrompt, hasImage, isVoiceMessage)
  }

  /** Where the image sentence goes: after the rules and a blank line. */
  predicate HasImageLine(rules: string, p: string)
  {
    |rules| + 2 <= |p| && StartsWith(p[|rules| + 2..], ImageSentence)
  }

  predicate EndsWithVoiceLine(p: string)
  {
    |p| >= |VoiceSentence| && p[|p| - |VoiceSentence|..] == VoiceSentence
  }

  /** A sentence that does not open with a line break fills the slot after the rules exactly when present. */
  lemma SlotHoldsSentence(rules: string, sentence: string, filled: bool, voice: string)
    requires |sentence| > 0 && sentence[0] != '\n'
    ensures var p := rules + "\n\n" + (if filled then sentence else "") + "\n" + voice;
      && StartsWith(p, rules)
      && (|rules| + 2 <= |p| && StartsWith(p[|rules| + 2..], sentence) <==> filled)
      && (filled ==> Contains(p, sentence))
  {
    var image := if filled then sentence else "";
    var p := rules + "\n\n" + image + "\n" + voice;
    var slot := |rules| + 2;
    var rest := image + "\n" + voice;
    assert p == (rules + "\n\n") + rest;
    assert p[..|rules|] == rules;
    assert p[slot..] == rest;
    if filled {
      assert p[slot..slot + |sentence|] == sentence;
      ContainsAt(p, sentence, slot);
    } else {
      assert p[slot..][0] == '\n';
    }
  }

  lemma ImageSlotFilledIffImage(rules: string, hasImage: bool, isVoiceMessage: bool)
    ensures var p := AssemblePrompt(rules, hasImage, isVoiceMessage);
      && StartsWith(p, rules)
      && (HasImageLine(rules, p) <==> hasImage)
      && (hasImage ==> Contains(p, ImageSentence))
  {
    assert ImageSentence[0] == 'T';
    SlotHoldsSentence(rules, ImageSentence, hasImage, if isVoiceMessage then VoiceSentence else "");
  }

  lemma VoiceLineLastIffVoice(rules: string, hasImage: bool, isVoiceMessage: bool)
    ensures var p := AssemblePrompt(rules, hasImage, isVoiceMessage);
      && (isVoiceMessage ==> Contains(p, VoiceSentence))
      && (EndsWithVoiceLine(p) <==> isVoiceMessage)
  {
    var p := AssemblePrompt(rules, hasImage, isVoiceMessage);
    var image := if hasImage then ImageSentence else "";
    if isVoiceMessage {
      assert p == (rules + "\n\n" + image + "\n") + VoiceSentence;
      assert p[|p| - |VoiceSentence|..] == VoiceSentence;
      ContainsAt(p, VoiceSentence, |p| - |VoiceSentence|);
    } else {
      assert p == rules + "\n\n" + image + "\n";
      assert p[|p| - 1] == '\n';
      assert VoiceSentence[|VoiceSentence| - 1] == '.';
    }
  }

  /**
   * The prompt always opens with the rules; the image sentence fills its
   * slot exactly when the user shared an image, and the prompt ends with
   * the voice sentence exactly when the user sent a voice message.
   */
  lemma SystemPromptFlags(hasImage: bool, isVoiceMessage: bool)
    ensures var p := BuildSystemPrompt(hasImage, isVoiceMessage);
      && StartsWith(p, BasePrompt)
      && (HasImageLine(BasePrompt, p) <==> hasImage)
      && (hasImage ==> Contains(p, ImageSentence))
      && (isVoiceMessage ==> Contains(p, VoiceSentence))
      && (EndsWithVoiceLine(p) <==> isVoiceMessage)
  {
    ImageSlotFilledIffImage(BasePrompt, hasImage, isVoiceMessage);
    VoiceLineLastIffVoice(BasePrompt, hasImage, isVoiceMessage);
  }

  /** Changing either flag changes the prompt. */
  lemma SystemPromptDeterminesFlags(h1: bool, v1: bool, h2: bool, v2: bool)
    requires BuildSystemPrompt(h1, v1) == BuildSystemPrompt(h2, v2)
    ensures h1 == h2 && v1 == v2
  {
    SystemPromptFlags(h1, v1);
    SystemPromptFlags(h2, v2);
  }

  // ---------------------------------------------------------------------
  // Replies
  // ---------------------------------------------------------------------

  const NoResponseText := "No response received."
  const TechnicalDifficultiesText :=
    "I'm experiencing technical difficulties right now. For urgent concerns, please contact a healthcare professional."
  const ImageTroubleText :=
    "I'm having trouble analyzing the image right now. Please describe your symptoms in text."

  /**
   * `data.choices?.[0]?.message?.content ?? 'No response received.'`
   * inside a try whose catch returns `fallback`. `??` replaces only a
   * missing content, so an empty reply comes back as it is.
   */
  function ReplyOf(api: ApiResult, fallback: string): (reply: string)
    ensures api.Completed? && api.content.Some? ==> reply == api.content.value
    ensures api.Completed? && api.content.None? ==> reply == NoResponseText
    ensures !api.Completed? ==> reply == fallback
  {
    match api
    case Completed(content) => if content.Some? then content.value else NoResponseText
    case _ => fallback
  }

  function ToRequestRole(role: TurnRole): Role
  {
    if role == ModelTurn then AssistantRole else UserRole
  }

  /** `{ role: msg.role === 'model' ? 'assistant' : 'user', content: msg.parts }`. */
  function ToRequestMessage(t: Turn): RequestMessage
  {
    RequestMessage(ToRequestRole(t.role), Plain(t.parts))
  }

  // ---------------------------------------------------------------------
  // generateResponse
  // ---------------------------------------------------------------------

  /**
   * The `messages` array of generateResponse: the system prompt, each
   * history turn in order with 'model' sent as 'assistant', then the new
   * user message.
   */
  method AssembleMessages(userMessage: string, history: seq<Turn>, hasImage: bool, isVoiceMessage: bool)
    returns (messages: seq<RequestMessage>)
    ensures |messages| == |history| + 2
    ensures messages[0] == RequestMessage(SystemRole, Plain(BuildSystemPrompt(hasImage, isVoiceMessage)))
    ensures forall i :: 0 <= i < |history| ==>
      messages[i + 1].content == Plain(history[i].parts)
      && (messages[i + 1].role == AssistantRole <==> history[i].role == ModelTurn)
      && (messages[i + 1].role == UserRole <==> history[i].role == UserTurn)
    ensures messages[|history| + 1] == RequestMessage(UserRole, Plain(userMessage))
  {
    messages := [RequestMessage(SystemRole, Plain(BuildSystemPrompt(hasImage, isVoiceMessage)))];
    var i := 0;
    while i < |history|
      invariant 0 <= i <= |history|
      invariant |messages| == i + 1
      invariant messages[0] == RequestMessage(SystemRole, Plain(BuildSystemPrompt(hasImage, isVoiceMessage)))
      invariant forall j :: 0 <= j < i ==> messages[j + 1] == ToRequestMessage(history[j])
    {
      messages := messages + [ToRequestMessage(history[i])];
      i := i + 1;
    }
    messages := messages + [RequestMessage(UserRole, Plain(userMessage))];
  }

  /**
   * generateResponse never throws: the reply is the completion's content,
   * 'No response received.' when there is none, and the
   * technical-difficulties text for every failure. `request` is the
   * message list it posts.
   */
  method GenerateResponse(userMessage: string, history: seq<Turn>, hasImage: bool, isVoiceMessage: bool,
                          api: ApiResult)
    returns (reply: string, request: seq<RequestMessage>)
    ensures |request| == |history| + 2
    ensures request[0] == RequestMessage(SystemRole, Plain(BuildSystemPrompt(hasImage, isVoiceMessage)))
    ensures forall i :: 0 <= i < |history| ==> request[i + 1] == ToRequestMessage(history[i])
    ensures request[|history| + 1] == RequestMessage(UserRole, Plain(userMessage))
    ensures reply == ReplyOf(api, TechnicalDifficultiesText)
    ensures !api.Completed? ==> reply == TechnicalDifficultiesText
  {
    request := AssembleMessages(userMessage, history, hasImage, isVoiceMessage);
    reply := ReplyOf(api, TechnicalDifficultiesText);
  }

  // ---------------------------------------------------------------------
  // analyzeImage
  // ---------------------------------------------------------------------

  const DataUrlPrefix := "data:image/jpeg;base64,"

  /** The two messages analyzeImage posts: the image prompt, then caption and picture. */
  function ImageRequest(imageBase64: string, caption: string): (request: seq<RequestMessage>)
    ensures |request| == 2
    ensures request[0].role == SystemRole && request[1].role == UserRole
    ensures request[1].content == Parts([TextPart(caption), ImageUrlPart(DataUrlPrefix + imageBase64)])
  {
    [RequestMessage(SystemRole, Plain(BuildSystemPrompt(true, false))),
     RequestMessage(UserRole, Parts([TextPart(caption), ImageUrlPart(DataUrlPrefix + imageBase64)]))]
  }

  /**
   * analyzeImage never throws. Empty image data is refused before any
   * request (`request` is `None`); otherwise the reply follows the same
   * rule as generateResponse with the image fallback text.
   */
  function AnalyzeImage(imageBase64: string, caption: string, api: ApiResult)
    : (result: (string, Option<seq<RequestMessage>>))
    ensures imageBase64 == "" ==> result == (ImageTroubleText, None)
    ensures imageBase64 != "" ==>
      result.1 == Some(ImageRequest(imageBase64, caption)) && result.0 == ReplyOf(api, ImageTroubleText)
  {
    if imageBase64 == "" then (ImageTroubleText, None)
    else (ReplyOf(api, ImageTroubleText), Some(ImageRequest(imageBase64, caption)))
  }

  /** The image request's system prompt carries the image sentence and no voice sentence. */
  lemma ImageRequestAcknowledgesImage(imageBase64: string, caption: string)
    ensures var p := ImageRequest(imageBase64, caption)[0].content.text;
      Contains(p, ImageSentence) && p == BuildSystemPrompt(true, false)
      && HasImageLine(BasePrompt, p) && !EndsWithVoiceLine(p)
  {
    SystemPromptFlags(true, false);
  }

  /** The picture travels as a JPEG data URL that ends with the base64 payload unchanged. */
  lemma ImageUrlCarriesPayload(imageBase64: string, caption: string)
    ensures var url := ImageRequest(imageBase64, caption)[1].content.parts[1].url;
      StartsWith(url, DataUrlPrefix) && url[|DataUrlPrefix|..] == imageBase64
  {
  }
}
