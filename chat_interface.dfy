/**
 * The chat screen (`ChatInterface`): the displayed transcript, the
 * conversation history sent to the language model, the current session
 * and the guard flags around sending, saving and the initial message.
 *
 * Every remote call goes through the models of the services: the session
 * store is a `ChatSessionStore` object, the language model and the
 * speech services are the oracle-driven functions of `GeminiService` and
 * `ElevenLabsService`. Clock readings and generated ids arrive in the
 * `SendEnv` parameter.
 */
module ChatInterface {
  import opened Wrappers
  import opened Text
  import opened SupabaseService
  import opened GeminiService
  import ElevenLabsService

  const WelcomeId := "1"
  const WelcomeText :=
    "Hello! I'm Dr. Ava, your AI health assistant. How can I help you today? You can type your message, record a voice note, or upload an image of any symptoms you'd like me to analyze."
  const VoiceDefaultContent := "Voice message"
  const ImageDefaultContent := "Image uploaded"
  const ImagePlaceholder := "Medical image analyzed"
  const ImageCaptionDefault := "Please analyze this medical image and provide insights."
  const UploadPrompt := "Please analyze this image and provide medical insights."

  /** A JavaScript optional string as an `if` sees it: present and non-empty. */
  predicate Truthy(o: Option<string>)
  {
    o.Some? && o.value != ""
  }

  /** The greeting every fresh transcript starts with. */
  function Welcome(stamp: string): ChatMessage
  {
    ChatMessage(WelcomeId, AiSender, WelcomeText, stamp, None, None, None)
  }

  /** Which faults the read and the write of one saveMessage hit. */
  datatype SaveFaults = SaveFaults(read: Option<string>, write: Option<string>)

  const NoSaveFaults := SaveFaults(None, None)

  /**
   * Everything one send observes from outside: the two message ids, the
   * clock (as a number for the store and as the ISO text stamped on
   * messages), the language-model exchange, the faults of the two saves, the
   * ElevenLabs key, the speech exchange and the object URL made for the
   * returned audio.
   */
  datatype SendEnv = SendEnv(
    userId: string,
    aiId: string,
    now: nat,
    stamp: string,
    api: ApiResult,
    userSave: SaveFaults,
    aiSave: SaveFaults,
    speechKey: string,
    tts: ElevenLabsService.TtsCall,
    audioObjectUrl: string)

  // ---------------------------------------------------------------------
  // The messages one send produces
  // ---------------------------------------------------------------------

  /** The user turn as displayed: the data URL of an image is kept. */
  function UserMessage(content: string, audioUrl: Option<string>, imageBase64: Option<string>,
                       isVoiceMessage: bool, env: SendEnv): (m: ChatMessage)
    ensures m.sender == UserSender && m.id == env.userId
    ensures content != "" ==> m.content == content
    ensures Truthy(imageBase64) <==> m.imageUrl.Some?
  {
    ChatMessage(
      env.userId, UserSender,
      if content != "" then content else if isVoiceMessage then VoiceDefaultContent else ImageDefaultContent,
      env.stamp, audioUrl,
      if Truthy(imageBase64) then Some(DataUrlPrefix + imageBase64.value) else None,
      Some(isVoiceMessage))
  }

  /** The copy that is saved: image data gives way to a placeholder. */
  function PersistedCopy(m: ChatMessage, imageBase64: Option<string>): (p: ChatMessage)
    ensures Truthy(imageBase64) ==> p.imageUrl == Some(ImagePlaceholder)
    ensures !Truthy(imageBase64) ==> p == m
    ensures p.(imageUrl := m.imageUrl) == m
  {
    if Truthy(imageBase64) then m.(imageUrl := Some(ImagePlaceholder)) else m
  }

  /** The placeholder is never a data URL, so no image data reaches the store. */
  lemma PersistedCopyDropsImageData(content: string, audioUrl: Option<string>, imageBase64: Option<string>,
                                    isVoiceMessage: bool, env: SendEnv)
    ensures var p := PersistedCopy(UserMessage(content, audioUrl, imageBase64, isVoiceMessage, env), imageBase64);
      p.imageUrl.Some? ==> !StartsWith(p.imageUrl.value, DataUrlPrefix)
  {
    assert ImagePlaceholder[0] != DataUrlPrefix[0];
  }

  /**
   * The assistant's text for one send: the image analysis when image data
   * is attached, the chat completion otherwise. Both service calls
   * degrade every failure to their own fixed text.
   */
  function SendReply(content: string, imageBase64: Option<string>, api: ApiResult): (r: string)
    ensures !api.Completed? ==> r == (if Truthy(imageBase64) then ImageTroubleText else TechnicalDifficultiesText)
    ensures api.Completed? && api.content.Some? ==> r == api.content.value
    ensures api.Completed? && api.content.None? ==> r == NoResponseText
  {
    ReplyOf(api, if Truthy(imageBase64) then ImageTroubleText else TechnicalDifficultiesText)
  }

  /** The reply is the one the image analysis or the chat completion gives for the same answer. */
  lemma SendReplyIsServiceReply(content: string, imageBase64: Option<string>, api: ApiResult)
    ensures Truthy(imageBase64) ==>
      SendReply(content, imageBase64, api)
      == AnalyzeImage(imageBase64.value, if content != "" then content else ImageCaptionDefault, api).0
    ensures !Truthy(imageBase64) ==> SendReply(content, imageBase64, api) == ReplyOf(api, TechnicalDifficultiesText)
  {
  }

  /** `prev.map(msg => msg.id === id ? { ...msg, audioUrl } : msg)`. */
  function AttachAudio(msgs: seq<ChatMessage>, id: string, url: string): (r: seq<ChatMessage>)
    ensures |r| == |msgs|
    ensures forall i :: 0 <= i < |msgs| && msgs[i].id != id ==> r[i] == msgs[i]
    ensures forall i :: 0 <= i < |msgs| && msgs[i].id == id ==> r[i] == msgs[i].(audioUrl := Some(url))
    decreases |msgs|
  {
    if |msgs| == 0 then []
    else
      var head := if msgs[0].id == id then msgs[0].(audioUrl := Some(url)) else msgs[0];
      [head] + AttachAudio(msgs[1..], id, url)
  }

  /** The reply is voiced exactly when ElevenLabs is configured and the speech call returns audio. */
  predicate Speaks(env: SendEnv)
  {
    ElevenLabsService.IsConfigured(env.speechKey) && env.tts.TtsAudio?
  }

  /** The history role of a stored message: user → 'user', ai → 'model'. */
  function TurnRoleOf(s: Sender): TurnRole
  {
    if s == UserSender then UserTurn else ModelTurn
  }

  /** A history aligned with a transcript: one turn per message after the greeting, same role. */
  predicate Aligned(messages: seq<ChatMessage>, history: seq<Turn>)
  {
    && |messages| == |history| + 1
    && forall i :: 0 <= i < |history| ==> history[i].role == TurnRoleOf(messages[i + 1].sender)
  }

  // ---------------------------------------------------------------------
  // Transcription as the chat screen wraps it
  // ---------------------------------------------------------------------

  const SttNotConfiguredError := "Speech-to-text service " + "is not configured"
  const SttNotAvailableText :=
    "Speech-to-text " + "service is not available. Please type your message instead."

  /** The catch block of transcribeAudioWithElevenLabs. */
  function ChatSttFallback(message: string): (r: string)
    ensures r == SttNotAvailableText <==> Contains(message, "API key") || Contains(message, "401")
    ensures r != SttNotAvailableText ==> r == ElevenLabsService.TroubleText
  {
    if Contains(message, "API key") || Contains(message, "401") then SttNotAvailableText
    else ElevenLabsService.TroubleText
  }

  /** A message with neither a 'k' nor a '1' names neither the key nor a 401: the generic trouble text. */
  lemma FallbackWithoutKeyOr401(message: string)
    requires 'k' !in message && '1' !in message
    ensures ChatSttFallback(message) == ElevenLabsService.TroubleText
  {
    NotContainsChar(message, "API key", 4);
    NotContainsChar(message, "401", 2);
  }

  /**
   * transcribeAudioWithElevenLabs: an unconfigured service throws the
   * not-configured error into its own catch, whose text names neither
   * the key nor a 401, so the chat shows the generic trouble text.
   * With a key the chat shows exactly what transcribeAudio returns:
   * that never throws and never returns blank text, so the chat's own
   * blank check and not-available branch never fire.
   */
  function TranscribeForChat(speechKey: string, call: ElevenLabsService.SttCall): (r: string)
    ensures !ElevenLabsService.IsConfigured(speechKey) ==> r == ElevenLabsService.TroubleText
    ensures ElevenLabsService.IsConfigured(speechKey) ==> r == ElevenLabsService.TranscribeAudio(speechKey, call)
  {
    if !ElevenLabsService.IsConfigured(speechKey) then
      FallbackWithoutKeyOr401(SttNotConfiguredError);
      ChatSttFallback(SttNotConfiguredError)
    else
      var t := ElevenLabsService.TranscribeAudio(speechKey, call);
      ElevenLabsService.TranscriptionNeverBlank(speechKey, call);
      if Blank(t) then ElevenLabsService.NoSpeechText else t
  }

  // ---------------------------------------------------------------------
  // Image upload
  // ---------------------------------------------------------------------

  const MaxImageBytes := 10 * 1024 * 1024
  const NotImageAlert := "Please select an image file (JPEG, PNG, GIF, etc.)"
  const TooLargeAlert := "Image file is too large. Please select an image smaller than 10MB."
  const ReadFailedError := "Failed to read image file"
  const ExtractFailedError := "Failed to extract base64 data from image"
  const UploadFailedPrefix := "Failed to process the image: "

  datatype UploadFile = UploadFile(mimeType: string, size: nat)

  datatype UploadCheck = NotAnImage | TooLarge | Acceptable

  /** The two checks of handleImageUpload, in order. */
  function CheckUpload(file: UploadFile): (c: UploadCheck)
    ensures c == Acceptable <==> StartsWith(file.mimeType, "image/") && file.size <= MaxImageBytes
    ensures c == NotAnImage <==> !StartsWith(file.mimeType, "image/")
  {
    if !StartsWith(file.mimeType, "image/") then NotAnImage
    else if file.size > MaxImageBytes then TooLarge
    else Acceptable
  }

  /** `result.split(',')[1]`, refused when it is missing or empty. */
  function ExtractBase64(dataUrl: string): (r: Option<string>)
    ensures r.Some? ==> r.value != "" && ',' !in r.value && ',' in dataUrl
    ensures ',' !in dataUrl ==> r.None?
  {
    var pieces := Split(dataUrl, ',');
    if |pieces| >= 2 && pieces[1] != "" then Some(pieces[1]) else None
  }

  /** Reading back the data URL the model is sent recovers the payload. */
  lemma ExtractBase64OfDataUrl(payload: string)
    requires payload != "" && ',' !in payload
    ensures ExtractBase64(DataUrlPrefix + payload) == Some(payload)
  {
    var head := "data:image/jpeg;base64";
    assert DataUrlPrefix + payload == head + [','] + payload;
    SplitAtSeparator(head, payload, ',');
    SplitAppend(payload, "", ',');
    assert payload + "" == payload;
  }

  /** `after` is `before` with `m` appended to session `id` and its stamps set to `now`. */
  predicate Appended(before: map<string, ChatSession>, after: map<string, ChatSession>,
                     id: string, m: ChatMessage, now: nat)
  {
    && id in before
    && after == before[id := before[id].(messages := before[id].messages + [m], lastMessageAt := now, updatedAt := now)]
  }

  // ---------------------------------------------------------------------
  // The component
  // ---------------------------------------------------------------------

  /**
   * The message list one send gives the chat model: the history, then the
   * user's text; `None` when image data goes to the image analysis instead.
   */
  method ChatRequest(content: string, history: seq<Turn>, imageBase64: Option<string>,
                     isVoiceMessage: bool, api: ApiResult)
    returns (request: Option<seq<RequestMessage>>)
    ensures Truthy(imageBase64) <==> request.None?
    ensures request.Some? ==>
      && |request.value| == |history| + 2
      && (forall i :: 0 <= i < |history| ==> request.value[i + 1] == ToRequestMessage(history[i]))
      && request.value[0] == RequestMessage(SystemRole, Plain(BuildSystemPrompt(false, isVoiceMessage)))
      && request.value[|history| + 1] == RequestMessage(UserRole, Plain(content))
  {
    if Truthy(imageBase64) {
      return None;
    }
    var reply, sent := GenerateResponse(content, history, false, isVoiceMessage, api);
    request := Some(sent);
  }

  class ChatScreen {
    const store: ChatSessionStore
    var messages: seq<ChatMessage>
    var history: seq<Turn>
    var currentSession: Option<ChatSession>
    var inputText: string
    var isLoading: bool
    var isSavingMessage: bool
    var processedInitialMessage: string
    var isProcessingInitialMessage: bool
    var hasLoadedSession: bool

    /** An assistant message with the greeting's id heads the transcript, and the history follows the rest of it. */
    predicate Valid()
      reads this, store
    {
      && store.Valid()
      && Aligned(messages, history)
      && messages[0].id == WelcomeId && messages[0].sender == AiSender
    }

    constructor (store: ChatSessionStore, stamp: string)
      requires store.Valid()
      ensures Valid() && this.store == store
      ensures messages == [Welcome(stamp)] && history == [] && currentSession.None?
      ensures !isSavingMessage && !hasLoadedSession && !isProcessingInitialMessage && processedInitialMessage == ""
    {
      this.store := store;
      messages := [Welcome(stamp)];
      history := [];
      currentSession := None;
      inputText := "";
      isLoading := false;
      isSavingMessage := false;
      processedInitialMessage := "";
      isProcessingInitialMessage := false;
      hasLoadedSession := false;
    }

    /**
     * saveMessageToHistory: nothing without a current session or while a
     * save is in flight; otherwise one saveMessage whose failure is
     * swallowed.
     */
    method SaveMessageToHistory(message: ChatMessage, now: nat, faults: SaveFaults)
      requires store.Valid()
      modifies this`isSavingMessage, store`rows, store`authCallbacks
      ensures store.Valid()
      ensures isSavingMessage == old(isSavingMessage)
      ensures currentSession.None? || old(isSavingMessage) ==> store.rows == old(store.rows)
      ensures currentSession.Some? && !old(isSavingMessage) ==>
        (faults == NoSaveFaults && currentSession.value.id in old(store.rows) ==>
           Appended(old(store.rows), store.rows, currentSession.value.id, message, now))
        && (store.rows == old(store.rows) || Appended(old(store.rows), store.rows, currentSession.value.id, message, now))
    {
      if currentSession.None? || isSavingMessage {
        return;
      }
      isSavingMessage := true;
      var _ := store.SaveMessage(currentSession.value.id, message, now, faults.read, faults.write);
      isSavingMessage := false;
    }

    /** Shows `shown` and saves `saved`, the copy meant for the store. */
    method PostMessage(shown: ChatMessage, saved: ChatMessage, now: nat, faults: SaveFaults)
      requires store.Valid()
      modifies this`messages, this`isSavingMessage, store`rows, store`authCallbacks
      ensures store.Valid()
      ensures messages == old(messages) + [shown]
      ensures isSavingMessage == old(isSavingMessage)
      ensures currentSession.None? || old(isSavingMessage) ==> store.rows == old(store.rows)
      ensures currentSession.Some? && !old(isSavingMessage) ==>
        (faults == NoSaveFaults && currentSession.value.id in old(store.rows) ==>
           Appended(old(store.rows), store.rows, currentSession.value.id, saved, now))
        && (store.rows == old(store.rows) || Appended(old(store.rows), store.rows, currentSession.value.id, saved, now))
    {
      messages := messages + [shown];
      SaveMessageToHistory(saved, now, faults);
    }

    /**
     * The user turn and then the assistant turn are shown and saved one
     * after the other, and the history grows by the user text and the
     * reply.
     */
    method SendTurns(userMessage: ChatMessage, saved: ChatMessage, aiMessage: ChatMessage,
                     content: string, env: SendEnv)
      requires Valid()
      requires userMessage.sender == UserSender && aiMessage.sender == AiSender
      modifies this`messages, this`history, this`isSavingMessage, store`rows, store`authCallbacks
      ensures Valid()
      ensures messages == old(messages) + [userMessage, aiMessage]
      ensures history == old(history) + [Turn(UserTurn, content), Turn(ModelTurn, aiMessage.content)]
      ensures isSavingMessage == old(isSavingMessage)
      ensures currentSession.None? || old(isSavingMessage) ==> store.rows == old(store.rows)
      ensures currentSession.Some? && !old(isSavingMessage)
              && env.userSave == NoSaveFaults && env.aiSave == NoSaveFaults
              && currentSession.value.id in old(store.rows) ==>
        var id := currentSession.value.id;
        && id in store.rows
        && store.rows[id].messages == old(store.rows)[id].messages + [saved, aiMessage]
    {
      ghost var rows0 := store.rows;
      PostMessage(userMessage, saved, env.now, env.userSave);
      ghost var rows1 := store.rows;
      PostMessage(aiMessage, aiMessage, env.now, env.aiSave);
      history := history + [Turn(UserTurn, content), Turn(ModelTurn, aiMessage.content)];
      if currentSession.Some? && !isSavingMessage && env.userSave == NoSaveFaults && env.aiSave == NoSaveFaults
         && currentSession.value.id in rows0
      {
        var id := currentSession.value.id;
        assert Appended(rows0, rows1, id, saved, env.now);
        assert Appended(rows1, store.rows, id, aiMessage, env.now);
        assert rows0[id].messages + [saved] + [aiMessage] == rows0[id].messages + [saved, aiMessage];
      }
    }

    /** Attaches the reply's voice when ElevenLabs is configured and produces audio. */
    method AttachSpeech(aiId: string, text: string, env: SendEnv)
      requires Valid()
      modifies this`messages
      ensures Valid()
      ensures |messages| == |old(messages)|
      ensures forall i :: 0 <= i < |messages| ==>
        messages[i] == old(messages)[i]
        || (old(messages)[i].id == aiId && messages[i] == old(messages)[i].(audioUrl := Some(env.audioObjectUrl)))
      ensures messages == (if Speaks(env) then AttachAudio(old(messages), aiId, env.audioObjectUrl) else old(messages))
    {
      if ElevenLabsService.IsConfigured(env.speechKey) {
        var speech := ElevenLabsService.GenerateSpeech(env.speechKey, env.tts);
        if speech.Resolved? {
          ghost var before := messages;
          messages := AttachAudio(messages, aiId, env.audioObjectUrl);
          assert forall i :: 0 <= i < |messages| ==> messages[i].sender == before[i].sender;
        }
      }
    }

    /**
     * handleSendMessage. Blank text with neither audio nor image does
     * nothing. Otherwise the user turn and then the assistant turn are
     * shown and saved, the history grows by the user text and the reply,
     * and a voice for the reply is attached when ElevenLabs produces one.
     * `request` is the message list sent to the chat model (`None` for
     * an image, which goes to the image analysis instead).
     */
    method HandleSendMessage(content: string, audioUrl: Option<string>, imageBase64: Option<string>,
                             isVoiceMessage: bool, env: SendEnv)
      returns (accepted: bool, request: Option<seq<RequestMessage>>)
      requires Valid()
      requires env.userId != env.aiId
      modifies this`messages, this`history, this`inputText, this`isLoading, this`isSavingMessage,
        store`rows, store`authCallbacks
      ensures Valid()
      ensures accepted <==> !(Blank(content) && !Truthy(audioUrl) && !Truthy(imageBase64))
      ensures !accepted ==>
        && messages == old(messages) && history == old(history) && store.rows == old(store.rows)
        && inputText == old(inputText) && request.None?
      ensures accepted ==>
        var n := |old(messages)|;
        var reply := SendReply(content, imageBase64, env.api);
        && |messages| == n + 2
        && messages[n] == UserMessage(content, audioUrl, imageBase64, isVoiceMessage, env)
        && messages[n + 1].id == env.aiId && messages[n + 1].sender == AiSender
        && messages[n + 1].content == reply
        && messages[n + 1].audioUrl == (if Speaks(env) then Some(env.audioObjectUrl) else None)
        && (forall i :: 0 <= i < n && old(messages)[i].id != env.aiId ==> messages[i] == old(messages)[i])
        && history == old(history) + [Turn(UserTurn, content), Turn(ModelTurn, reply)]
        && inputText == "" && !isLoading
      ensures accepted && !Truthy(imageBase64) ==>
        request.Some? && |request.value| == |old(history)| + 2
        && (forall i :: 0 <= i < |old(history)| ==> request.value[i + 1] == ToRequestMessage(old(history)[i]))
        && request.value[|old(history)| + 1] == RequestMessage(UserRole, Plain(content))
      ensures accepted && Truthy(imageBase64) ==> request.None?
      ensures isSavingMessage == old(isSavingMessage)
      ensures accepted && currentSession.Some? && !old(isSavingMessage)
              && env.userSave == NoSaveFaults && env.aiSave == NoSaveFaults
              && currentSession.value.id in old(store.rows) ==>
        var id := currentSession.value.id;
        && id in store.rows
        && store.rows[id].messages == old(store.rows)[id].messages + [
             PersistedCopy(UserMessage(content, audioUrl, imageBase64, isVoiceMessage, env), imageBase64),
             ChatMessage(env.aiId, AiSender, SendReply(content, imageBase64, env.api), env.stamp, None, None, None)]
    {
      if Blank(content) && !Truthy(audioUrl) && !Truthy(imageBase64) {
        return false, None;
      }
      accepted := true;
      request := ChatRequest(content, history, imageBase64, isVoiceMessage, env.api);
      Exchange(content, audioUrl, imageBase64, isVoiceMessage, env);
    }

    /** The accepted path of handleSendMessage: both turns shown, saved and added to the history. */
    method Exchange(content: string, audioUrl: Option<string>, imageBase64: Option<string>,
                    isVoiceMessage: bool, env: SendEnv)
      requires Valid()
      requires env.userId != env.aiId
      modifies this`messages, this`history, this`inputText, this`isLoading, this`isSavingMessage,
        store`rows, store`authCallbacks
      ensures Valid()
      ensures
        var n := |old(messages)|;
        var reply := SendReply(content, imageBase64, env.api);
        && |messages| == n + 2
        && messages[n] == UserMessage(content, audioUrl, imageBase64, isVoiceMessage, env)
        && messages[n + 1].id == env.aiId && messages[n + 1].sender == AiSender
        && messages[n + 1].content == reply
        && (forall i :: 0 <= i < n && old(messages)[i].id != env.aiId ==> messages[i] == old(messages)[i])
        && history == old(history) + [Turn(UserTurn, content), Turn(ModelTurn, reply)]
        && inputText == "" && !isLoading
      ensures
        var sent := old(messages) + [UserMessage(content, audioUrl, imageBase64, isVoiceMessage, env),
          ChatMessage(env.aiId, AiSender, SendReply(content, imageBase64, env.api), env.stamp, None, None, None)];
        messages == (if Speaks(env) then AttachAudio(sent, env.aiId, env.audioObjectUrl) else sent)
      ensures isSavingMessage == old(isSavingMessage)
      ensures currentSession.Some? && !old(isSavingMessage)
              && env.userSave == NoSaveFaults && env.aiSave == NoSaveFaults
              && currentSession.value.id in old(store.rows) ==>
        var id := currentSession.value.id;
        && id in store.rows
        && store.rows[id].messages == old(store.rows)[id].messages + [
             PersistedCopy(UserMessage(content, audioUrl, imageBase64, isVoiceMessage, env), imageBase64),
             ChatMessage(env.aiId, AiSender, SendReply(content, imageBase64, env.api), env.stamp, None, None, None)]
    {
      var userMessage := UserMessage(content, audioUrl, imageBase64, isVoiceMessage, env);
      inputText := "";
      isLoading := true;
      var aiResponse := SendReply(content, imageBase64, env.api);
      var aiMessage := ChatMessage(env.aiId, AiSender, aiResponse, env.stamp, None, None, None);
      SendTurns(userMessage, PersistedCopy(userMessage, imageBase64), aiMessage, content, env);
      AttachSpeech(aiMessage.id, aiResponse, env);
      isLoading := false;
    }

    /**
     * loadChatSession. A stored session with messages replaces the
     * transcript by the greeting and those messages and rebuilds the
     * history from them; without a session id a new session is created
     * and announced. Any failure is swallowed. `announced` is the id
     * passed to onSessionChange.
     */
    method LoadChatSession(sessionId: Option<string>, now: nat, stamp: string, readFault: Option<string>,
                           newId: string, createFault: Option<string>)
      returns (announced: Option<string>)
      requires Valid()
      modifies this, store
      ensures Valid() && hasLoadedSession
      ensures isSavingMessage == old(isSavingMessage)
      ensures processedInitialMessage == old(processedInitialMessage)
      ensures isProcessingInitialMessage == old(isProcessingInitialMessage)
      ensures Truthy(sessionId) ==> store.rows == old(store.rows) && announced.None?
      ensures Truthy(sessionId) && readFault.None? && sessionId.value in old(store.rows) ==>
        var session := old(store.rows)[sessionId.value];
        && currentSession == Some(session)
        && (|session.messages| > 0 ==>
              messages == [Welcome(stamp)] + session.messages
              && |history| == |session.messages|
              && forall i :: 0 <= i < |history| ==>
                   history[i] == Turn(TurnRoleOf(session.messages[i].sender), session.messages[i].content))
        && (|session.messages| == 0 ==> messages == old(messages) && history == old(history))
      ensures Truthy(sessionId) && (readFault.Some? || sessionId.value !in old(store.rows)) ==>
        currentSession == old(currentSession) && messages == old(messages) && history == old(history)
      ensures !Truthy(sessionId) ==> messages == old(messages) && history == old(history)
      ensures !Truthy(sessionId) && store.profile.Some? && createFault.None? && newId !in old(store.rows) ==>
        && currentSession == Some(ChatSession(newId, store.profile.value, DefaultSessionName, [], now, now, now))
        && store.rows == old(store.rows)[newId := currentSession.value]
        && announced == Some(newId)
      ensures !Truthy(sessionId) && !(store.profile.Some? && createFault.None? && newId !in old(store.rows)) ==>
        currentSession == old(currentSession) && store.rows == old(store.rows) && announced.None?
    {
      announced := None;
      if Truthy(sessionId) {
        var read := store.GetSession(sessionId.value, readFault);
        if read.Resolved? {
          var session := read.value;
          currentSession := Some(session);
          if |session.messages| > 0 {
            messages := [Welcome(stamp)] + session.messages;
            var rebuilt := RebuildHistory(session.messages);
            history := rebuilt;
            // session.id == sessionId, so onSessionChange is not called here
          }
        }
      } else {
        var created := store.CreateNewSession(newId, now, createFault);
        if created.Resolved? {
          currentSession := Some(created.value);
          announced := Some(created.value.id);
        }
      }
      hasLoadedSession := true;
    }

    /** The forEach that rebuilds the model's context from stored messages. */
    method RebuildHistory(stored: seq<ChatMessage>) returns (h: seq<Turn>)
      ensures |h| == |stored|
      ensures forall i :: 0 <= i < |stored| ==> h[i] == Turn(TurnRoleOf(stored[i].sender), stored[i].content)
    {
      h := [];
      var i := 0;
      while i < |stored|
        invariant 0 <= i <= |stored|
        invariant |h| == i
        invariant forall j :: 0 <= j < i ==> h[j] == Turn(TurnRoleOf(stored[j].sender), stored[j].content)
      {
        if stored[i].sender == UserSender {
          h := h + [Turn(UserTurn, stored[i].content)];
        } else {
          h := h + [Turn(ModelTurn, stored[i].content)];
        }
        i := i + 1;
      }
    }

    /**
     * The effect on `sessionId`: a new or different id resets the
     * transcript, the history and the initial-message guards before the
     * session is loaded.
     */
    method OnSessionId(sessionId: Option<string>, now: nat, stamp: string, readFault: Option<string>,
                       newId: string, createFault: Option<string>)
      returns (announced: Option<string>)
      requires Valid()
      modifies this, store
      ensures Valid() && hasLoadedSession
      ensures !Truthy(sessionId) ==> messages == [Welcome(stamp)] && history == []
      ensures !Truthy(sessionId) || old(currentSession).None? || sessionId.value != old(currentSession).value.id ==>
        processedInitialMessage == "" && !isProcessingInitialMessage
      ensures Truthy(sessionId) && readFault.None? && sessionId.value in old(store.rows)
              && |old(store.rows)[sessionId.value].messages| > 0 ==>
        var stored := old(store.rows)[sessionId.value].messages;
        && currentSession == Some(old(store.rows)[sessionId.value])
        && messages == [Welcome(stamp)] + stored
        && |history| == |stored|
        && forall i :: 0 <= i < |history| ==> history[i] == Turn(TurnRoleOf(stored[i].sender), stored[i].content)
      ensures Truthy(sessionId) && (old(currentSession).None? || sessionId.value != old(currentSession).value.id)
              && !(readFault.None? && sessionId.value in old(store.rows)
                   && |old(store.rows)[sessionId.value].messages| > 0) ==>
        messages == [Welcome(stamp)] && history == []
      ensures Truthy(sessionId) && old(currentSession).Some? && sessionId.value == old(currentSession).value.id
              && !(readFault.None? && sessionId.value in old(store.rows)
                   && |old(store.rows)[sessionId.value].messages| > 0) ==>
        messages == old(messages) && history == old(history)
    {
      if !Truthy(sessionId) || currentSession.None? || sessionId.value != currentSession.value.id {
        hasLoadedSession := false;
        processedInitialMessage := "";
        isProcessingInitialMessage := false;
        messages := [Welcome(stamp)];
        history := [];
      }
      announced := LoadChatSession(sessionId, now, stamp, readFault, newId, createFault);
    }

    /**
     * The initial-message effect: a non-blank message that differs from
     * the last one processed is sent once the session has loaded, and is
     * recorded before it goes out.
     */
    method ProcessInitialMessage(initialMessage: Option<string>, env: SendEnv) returns (sent: bool)
      requires Valid()
      requires env.userId != env.aiId
      modifies this, store
      ensures Valid()
      ensures sent <==>
        && initialMessage.Some? && !Blank(initialMessage.value)
        && old(processedInitialMessage) != initialMessage.value
        && !old(isProcessingInitialMessage) && old(hasLoadedSession) && old(currentSession).Some?
      ensures sent ==> processedInitialMessage == initialMessage.value && !isProcessingInitialMessage
      ensures sent ==>
        var n := |old(messages)|;
        var text := initialMessage.value;
        var reply := SendReply(text, None, env.api);
        && |messages| == n + 2
        && messages[n] == UserMessage(text, None, None, false, env)
        && messages[n + 1].id == env.aiId && messages[n + 1].sender == AiSender
        && messages[n + 1].content == reply
        && messages[n + 1].audioUrl == (if Speaks(env) then Some(env.audioObjectUrl) else None)
        && (forall i :: 0 <= i < n && old(messages)[i].id != env.aiId ==> messages[i] == old(messages)[i])
        && history == old(history) + [Turn(UserTurn, text), Turn(ModelTurn, reply)]
        && inputText == "" && !isLoading
      ensures !sent ==>
        && messages == old(messages) && history == old(history) && store.rows == old(store.rows)
        && processedInitialMessage == old(processedInitialMessage)
    {
      sent := false;
      if initialMessage.Some? && !Blank(initialMessage.value)
         && processedInitialMessage != initialMessage.value
         && !isProcessingInitialMessage && hasLoadedSession && currentSession.Some?
      {
        processedInitialMessage := initialMessage.value;
        isProcessingInitialMessage := true;
        var accepted, _ := HandleSendMessage(initialMessage.value, None, None, false, env);
        isProcessingInitialMessage := false;
        sent := true;
      }
    }

    /**
     * handleImageUpload: the file must be an image of at most 10 MB; its
     * data URL (as the file reader returns it) must carry base64 data
     * after the comma. Each refusal yields the alert text and sends
     * nothing.
     */
    method HandleImageUpload(file: Option<UploadFile>, readResult: Settled<string>, env: SendEnv)
      returns (alert: Option<string>)
      requires Valid()
      requires env.userId != env.aiId
      modifies this, store
      ensures Valid()
      ensures file.None? ==> alert.None? && messages == old(messages) && store.rows == old(store.rows)
      ensures file.Some? && CheckUpload(file.value) == NotAnImage ==>
        alert == Some(NotImageAlert) && messages == old(messages) && store.rows == old(store.rows)
      ensures file.Some? && CheckUpload(file.value) == TooLarge ==>
        alert == Some(TooLargeAlert) && messages == old(messages) && store.rows == old(store.rows)
      ensures file.Some? && CheckUpload(file.value) == Acceptable && readResult.Rejected? ==>
        alert == Some(UploadFailedPrefix + readResult.message) && messages == old(messages)
      ensures file.Some? && CheckUpload(file.value) == Acceptable && readResult.Resolved? ==>
        if readResult.value == "" then
          alert == Some(UploadFailedPrefix + ReadFailedError) && messages == old(messages)
        else if ExtractBase64(readResult.value).None? then
          alert == Some(UploadFailedPrefix + ExtractFailedError) && messages == old(messages)
        else
          alert.None? && |messages| == |old(messages)| + 2
          && messages[|old(messages)|].imageUrl == Some(DataUrlPrefix + ExtractBase64(readResult.value).value)
    {
      alert := None;
      if file.None? {
        return;
      }
      var check := CheckUpload(file.value);
      if check == NotAnImage {
        return Some(NotImageAlert);
      } else if check == TooLarge {
        return Some(TooLargeAlert);
      }
      if readResult.Rejected? {
        return Some(UploadFailedPrefix + readResult.message);
      }
      if readResult.value == "" {
        return Some(UploadFailedPrefix + ReadFailedError);
      }
      var base64 := ExtractBase64(readResult.value);
      if base64.None? {
        return Some(UploadFailedPrefix + ExtractFailedError);
      }
      var accepted, _ := HandleSendMessage(UploadPrompt, None, base64, false, env);
    }
  }
}
