# Medixa telehealth client, modelled in Dafny

Medixa (also called AvaBuddie) is a React single-page telehealth application. It connects patients, health workers and
doctors through role-based dashboards. Its persistence, authentication and "intelligence" live in hosted services:
Supabase, an OpenRouter/Gemini chat model, ElevenLabs speech and Tavus avatar video. This project models the
client-side bookkeeping around those services and proves what it promises.

The centre is the chat session lifecycle:

- `SupabaseService`: the `chat_sessions` table is a `map` field of the class `ChatSessionStore`. Its methods are
  create, get, update, list newest-first, delete, append a message by read-modify-write, create-new and rename.
  `handleAuthError` always rethrows. `updateRequestStatus` and the retry loop of `createProfileFromAuth` are modelled
  as well.
- `GeminiService`: the system prompt, the message assembly for chat and image requests, and the fallback texts.
- `ChatInterface`: the chat screen as a class. A send appends one user turn and one assistant turn. The stored copy of
  an image turn drops the image data. The history is rebuilt from the stored session, the initial message is sent at
  most once, and uploads are checked.
- `ChatHistoryModal`, `PatientDashboard`, `NewChatInterface`: session navigation. This covers the history dialog's
  list edits, the dashboard's session id and chat key, and the de-duplicated quick-start launcher.

Around the centre sit the smaller pieces of the same kind:

- the speech-to-text fallback classification (`ElevenLabsService`);
- the Tavus configuration and simulated-conversation guards (`TavusService`);
- the video consultation's status machine over an array of media tracks (`TavusVideoConsultation`);
- the doctor dashboard, notification, case-review and appointment dialogs;
- the patient's doctor lists, doctor search, profile settings and scheduling dialog;
- the health-worker dashboard, patient analysis and medical records screens;
- the login page's role routing and error wording;
- the navigation path normaliser of the dashboard layout.

`Wrappers` holds `Option` and the settled outcome of a remote call. `Text` holds the string helpers: ASCII and
Latin-1 case folding, substring search, trimming, splitting, joining and initials.

Modelling conventions:

- Every remote call is a parameter that carries its outcome: a `Settled<T>` value, an `Option<string>` fault, or a
  service-specific result type.
- Clocks, generated ids and user answers to browser prompts are parameters too.
- A `setTimeout` is a pending flag plus a method for the moment the timer fires. The delays themselves are not
  modelled.
- Each React component with state is a class whose fields are its state variables. Its handlers are methods with
  `modifies` frames.

Notes on the source's behaviour:

- `getSession`, `updateSession` and `saveMessage` on a missing id reject. The `.single()` query fails for a missing
  row and `handleAuthError` rethrows that failure.
  (src/services/supabaseservice.ts:892-909, 911-930, 967-992)
- The `return null` / `return false` / `return []` statements after `handleAuthError` are unreachable.
- `deleteSession` on a missing id resolves to `true`, because a delete that matches no row is not an error.
- The chat screen's outer apology branch (src/components/chat/chatinterface.tsx:294-305) is never reached: both model
  calls catch every failure themselves.

## Model

| member | source | states |
|---|---|---|
| SupabaseService.CallbackCount | src/services/supabaseservice.ts:21-27 | handleAuthError fires the callback at most once per error, and exactly when the message mentions 'JWT' or 'session' |
| SupabaseService.AuthWordsFireCallback | src/services/supabaseservice.ts:23-25 | any message with 'JWT' or 'session' anywhere in it (such as "JWT expired" or "Auth session missing!") fires the callback |
| SupabaseService.NoProfileDoesNotFireCallback | src/services/supabaseservice.ts:871 | the signed-out error "No profile found" never fires the auth callback |
| SupabaseService.InsertByRecency | src/services/supabaseservice.ts:941 | placing one more session into the recency order loses and duplicates nothing: the result holds the old sessions and the new one, each as often as before |
| SupabaseService.InsertKeepsNewestFirst | src/services/supabaseservice.ts:941 | inserting a session by recency keeps the list ordered newest `last_message_at` first |
| SupabaseService.InsertKeepsNoDuplicates | src/services/supabaseservice.ts:938-941 | inserting a session that is not yet listed keeps every session listed once |
| SupabaseService.InsertByRecencyMembers | src/services/supabaseservice.ts:938-941 | the recency insertion keeps every listed session and adds only the new one |
| SupabaseService.RenameKeepsConversation | src/services/supabaseservice.ts:911-920 | an update carrying only a name changes the name and the two stamps, and keeps the messages, id and owner |
| SupabaseService.ChatSessionStore.constructor | src/services/supabaseservice.ts:867 | an empty table for a fixed current profile, with no callback fired yet |
| SupabaseService.ChatSessionStore.HandleAuthError | src/services/supabaseservice.ts:21-27 | the callback counter grows by exactly CallbackCount of the message |
| SupabaseService.ChatSessionStore.CreateSession | src/services/supabaseservice.ts:868-890 | without a profile it fails with "No profile found"; a query error or a taken id rejects and leaves the table alone; otherwise exactly one empty session owned by the profile is added under the new id |
| SupabaseService.ChatSessionStore.GetSession | src/services/supabaseservice.ts:892-909 | returns the stored row for the id; a missing row fails with the no-rows error of `.single()`; errors pass through handleAuthError and are rethrown |
| SupabaseService.ApplyUpdate | src/services/supabaseservice.ts:913-918 | the partial update overwrites exactly the fields it carries, sets both time stamps to now, and never changes the id, the owner or the creation time |
| SupabaseService.ChatSessionStore.UpdateSession | src/services/supabaseservice.ts:911-930 | a present row is replaced by the merge of the updates with both stamps set to now, and the merged row is returned; a missing row or a query error rejects and changes nothing |
| SupabaseService.ChatSessionStore.GetMySessions | src/services/supabaseservice.ts:932-950 | [] without a profile; on an error rejects through handleAuthError; otherwise exactly the profile's rows, each once, newest first |
| SupabaseService.ChatSessionStore.OwnedSessions | src/services/supabaseservice.ts:937-941 | the select with its order: exactly the owner's rows, each once, newest first |
| SupabaseService.ChatSessionStore.GetAllSessions | src/services/supabaseservice.ts:1000-1002 | the same answer as getMySessions: [] without a profile, the query error rethrown (firing the auth callback iff it mentions JWT or session), else the owner's sessions newest first |
| SupabaseService.ChatSessionStore.DeleteSession | src/services/supabaseservice.ts:952-965 | the row is removed and the result is true, even for an absent id; an error rejects and leaves the table as it was |
| SupabaseService.ChatSessionStore.SaveMessage | src/services/supabaseservice.ts:967-992 | succeeds exactly when the read and the write both succeed on a present row; the message is then appended to that row's list, both stamps become now and no other row changes; every failure leaves the table as it was |
| SupabaseService.ChatSessionStore.CreateNewSession | src/services/supabaseservice.ts:994-998 | succeeds exactly when createSession does, adding an empty "New Chat" session; otherwise it rejects with the no-profile, query or duplicate-key error, the auth callback firing by that message, and nothing is stored |
| SupabaseService.ChatSessionStore.UpdateSessionName | src/services/supabaseservice.ts:1004-1007 | succeeds exactly for a present row without an error, renaming it and stamping it now; otherwise it rejects with the query error or the no-rows error, the auth callback firing by that message, and nothing changes |
| SupabaseService.RequestStore.constructor | src/services/supabaseservice.ts:532 | the request table as given, with no relationships and no callback fired |
| SupabaseService.RequestStore.UpdateRequestStatus | src/services/supabaseservice.ts:532-568 | an update error rejects and changes nothing; otherwise the result is true, a present request gets the decision and the response time, and an approval adds one relationship for that request's patient and doctor unless the read-back or the insert fails |
| SupabaseService.InsertAttempts | src/services/supabaseservice.ts:210-229 | the retry loop stops at the first successful insert: with fewer than three failures it issues one more insert than there were failures, and otherwise exactly three |
| SupabaseService.ProfileStore.constructor | src/services/supabaseservice.ts:184 | the profiles table as given |
| SupabaseService.ProfileStore.CreateProfileFromAuth | src/services/supabaseservice.ts:184-237 | a check error other than PGRST116 is rethrown; an existing profile is returned without an insert; otherwise up to three inserts run, the third failure's error is rethrown, and a success stores and returns the new profile |
| GeminiService.SlotHoldsSentence | src/services/geminiservice.ts:21-34 | in the prompt template, the text after the rules and the blank line starts with the optional sentence exactly when that slot is filled |
| GeminiService.ImageSlotFilledIffImage | src/services/geminiservice.ts:33 | the assembled prompt starts with the rules and carries the image line exactly when an image was shared |
| GeminiService.VoiceLineLastIffVoice | src/services/geminiservice.ts:34 | the prompt ends with the voice line exactly when the message was spoken |
| GeminiService.SystemPromptFlags | src/services/geminiservice.ts:20-35 | buildSystemPrompt starts with the fixed rules and shows each acknowledgement exactly when its flag is set |
| GeminiService.SystemPromptDeterminesFlags | src/services/geminiservice.ts:20-35 | the four prompts are pairwise different: the prompt determines both flags |
| GeminiService.ReplyOf | src/services/geminiservice.ts:80-90 | a completed call yields its content, or 'No response received.' when there is none; a failed call yields the fixed fallback |
| GeminiService.AssembleMessages | src/services/geminiservice.ts:44-63 | the request is the system prompt, then one message per history turn with 'model' renamed 'assistant', then the new user message |
| GeminiService.GenerateResponse | src/services/geminiservice.ts:37-91 | sends the system prompt, the mapped history and the user message; replies with the model's content, and with the technical-difficulties text on any failure |
| GeminiService.ImageRequest | src/services/geminiservice.ts:99-119 | the image request is a system message and one user message holding the caption and the image as a JPEG data URL |
| GeminiService.AnalyzeImage | src/services/geminiservice.ts:93-147 | empty image data sends nothing and yields the image-trouble text; otherwise the image request is sent and its reply used, with the image-trouble text on failure |
| GeminiService.ImageRequestAcknowledgesImage | src/services/geminiservice.ts:102 | the image request's system prompt is the image variant: it acknowledges the image and has no voice line |
| GeminiService.ImageUrlCarriesPayload | src/services/geminiservice.ts:114 | the image URL is the data-URL prefix followed by the base64 payload, unchanged |
| GeminiService.BuildSystemPrompt | src/services/geminiservice.ts:20-35 | the prompt opens with the fixed rules and contains the image acknowledgement when an image was shared and the voice acknowledgement when the message was spoken |
| ElevenLabsService.TranscribeAudio | src/services/elevenlabsservice.ts:28-89 | with a key and a transcript that is not blank, the trimmed transcript is returned; its other outcomes are stated by the lemmas below |
| ElevenLabsService.MissingKeyIsNotConfigured | src/services/elevenlabsservice.ts:30-32 | without an API key every call ends in the not-configured text |
| ElevenLabsService.UnauthorizedIsNotConfigured | src/services/elevenlabsservice.ts:53-54 | a 401 response ends in the not-configured text |
| ElevenLabsService.BlankTranscriptIsNoSpeech | src/services/elevenlabsservice.ts:66-68 | a missing or all-blank transcript ends in the no-speech text |
| ElevenLabsService.ForbiddenEndsInTrouble | src/services/elevenlabsservice.ts:55-56 | as written, a 403 response ends in the generic trouble text, not the access-restricted one |
| ElevenLabsService.RateLimitedEndsInTrouble | src/services/elevenlabsservice.ts:57-58 | as written, a 429 response ends in the generic trouble text, not the temporarily-unavailable one |
| ElevenLabsService.TranscriptionNeverBlank | src/services/elevenlabsservice.ts:28-89 | transcribeAudio never throws and always returns visible text |
| ElevenLabsService.TranscribeAudioFixed | src/services/elevenlabsservice.ts:48-62 | the corrected call differs from the original only on 403 and 429 responses |
| ElevenLabsService.FixedForbiddenIsRestricted | src/services/elevenlabsservice.ts:78-79 | with the status kept in the thrown message, a 403 reaches the access-restricted text |
| ElevenLabsService.FixedRateLimitedIsUnavailable | src/services/elevenlabsservice.ts:80-81 | with the status kept in the thrown message, a 429 reaches the temporarily-unavailable text |
| ElevenLabsService.GenerateSpeech | src/services/elevenlabsservice.ts:91-137 | resolves exactly with a key and an audio body, whose bytes it returns unchanged; a missing key and a network error are rethrown as themselves |
| ElevenLabsService.IsConfigured | src/services/elevenlabsservice.ts:169-171 | configured exactly when the key is not empty |
| TavusService.ConfigurationStatus | src/services/tavusservice.ts:383-391 | each of the three key situations (no key, the placeholder, a real key) gets its own status text, in both directions |
| TavusService.CreateConversation | src/services/tavusservice.ts:78-171 | without a real key a 'mock_' conversation is made up; any failure of the request gives a 'fallback_' one; a delivered body is returned as it is; every made-up conversation is simulated and active |
| TavusService.UpdateConversationContext | src/services/tavusservice.ts:173-240 | simulated ids and missing keys skip the network and report true; otherwise a request is made and reports true exactly when it succeeded |
| TavusService.SendMessage | src/services/tavusservice.ts:242-273 | a request is made exactly when the key is real and the id is not simulated |
| TavusService.EndConversation | src/services/tavusservice.ts:317-346 | a request is made exactly when the key is real and the id is not simulated |
| TavusService.ConversationStatus | src/services/tavusservice.ts:348-375 | simulated conversations are 'active'; a failure gives 'error'; a missing or empty status gives 'unknown'; the result is never empty |
| TavusService.SimulatedConversationStaysLocal | src/services/tavusservice.ts:78-171 | a made-up conversation is never sent to the network by the later calls, and always reads as active |
| TavusService.RealConversationIsContacted | src/services/tavusservice.ts:176-179 | with a real key, an id that is not simulated reaches the network in every call, and a failed context update reports false |
| TavusService.IsConfigured | src/services/tavusservice.ts:378-380 | configured exactly when the key is neither empty nor the placeholder |
| TavusService.IsSimulated | src/services/tavusservice.ts:176-179 | every 'mock_' and every 'fallback_' conversation id is a simulated one, and a simulated id is never empty |
| TavusVideoConsultation.MediaErrorText | src/components/video/tavusvideoconsultation.tsx:109-131 | each of the five known error names (NotAllowedError, NotFoundError, NotReadableError, OverconstrainedError, SecurityError) gets its own fixed text; an Error with any other name keeps its own message, or the default text when that is empty; a thrown non-Error gets the default text; the text is never empty |
| TavusVideoConsultation.SetupFailure | src/components/video/tavusvideoconsultation.tsx:48-50 | a browser without getUserMedia gets the unsupported-browser text; a refused request gets the classified media error |
| TavusVideoConsultation.UnsupportedSurvivesCatch | src/components/video/tavusvideoconsultation.tsx:48-50 | the unsupported-browser error, thrown as a plain Error, leaves the catch block with its own text |
| TavusVideoConsultation.KnownNameIgnoresMessage | src/components/video/tavusvideoconsultation.tsx:115-124 | for the five known error names the shown text depends only on the name, never on the message |
| TavusVideoConsultation.SimulatedUrlOffersLink | src/components/video/tavusvideoconsultation.tsx:167-169 | the made-up '/mock-tavus-conversation' URL contains 'tavus', so it also turns on the open-in-new-window link |
| TavusVideoConsultation.SetEnabled | src/components/video/tavusvideoconsultation.tsx:243-247 | exactly the tracks of the given kind get the new enabled flag; every other track and field is kept |
| TavusVideoConsultation.StopAll | src/components/video/tavusvideoconsultation.tsx:30-35 | every track of the stream is stopped and nothing else about it changes |
| TavusVideoConsultation.Consultation.constructor | src/components/video/tavusvideoconsultation.tsx:10-21 | the initial state: idle, not connecting, no stream, no conversation, no errors, unmuted, video on |
| TavusVideoConsultation.Consultation.Connect | src/components/video/tavusvideoconsultation.tsx:74-75 | after the media was granted: the stream holds exactly the granted tracks, the demo-mode error is set exactly without a real key, the created conversation is adopted and the connect timer is armed |
| TavusVideoConsultation.Consultation.Adopt | src/components/video/tavusvideoconsultation.tsx:157-195 | the conversation id is set; its URL is kept only when non-empty; the external link turns on for a tavus or daily.co URL; a context update is requested only for a non-empty id with a real key |
| TavusVideoConsultation.Consultation.FailSetup | src/components/video/tavusvideoconsultation.tsx:197-216 | the error status with the media message kept and the start error derived from it |
| TavusVideoConsultation.Consultation.EnterConnecting | src/components/video/tavusvideoconsultation.tsx:136-139 | 'connecting' with both error texts cleared |
| TavusVideoConsultation.Consultation.ConnectGranted | src/components/video/tavusvideoconsultation.tsx:135-195 | with the media granted: status 'connecting' with isConnecting set and the connect timer scheduled; both error texts cleared, except the demo-mode notice (and mock mode) without a key; a new stream of exactly the granted tracks; the conversation id from createConversation, its URL when non-empty, the external link when the URL offers one, and a context update for a real conversation |
| TavusVideoConsultation.Consultation.Refuse | src/components/video/tavusvideoconsultation.tsx:135-143 | with the media refused only the status fields change: the error status, the media message and the start error derived from it |
| TavusVideoConsultation.Consultation.EffectCleanup | src/components/video/tavusvideoconsultation.tsx:27-40 | the cleanup stops every track of the current stream and ends the captured conversation exactly when it is real |
| TavusVideoConsultation.Consultation.StartConsultation | src/components/video/tavusvideoconsultation.tsx:27-217 | as written: once the conversation id changes, the effect's cleanup has stopped every track of the stream that was just granted; a refused start ends in the error status, not connecting, with the media message and the derived start error, and keeps the stream and the conversation id |
| TavusVideoConsultation.Consultation.StartConsultationFixed | src/components/video/tavusvideoconsultation.tsx:135-217 | with the cleanup run at unmount only: a granted start ends in everything ConnectGranted states, with the granted tracks still as given; a refused one ends in the error status, not connecting, with the media message and the derived start error, and keeps the stream, the conversation id and the requests sent |
| TavusVideoConsultation.Consultation.ConnectTimerFires | src/components/video/tavusvideoconsultation.tsx:190-195 | after three seconds the call counts as connected; the stream, the conversation and the error are kept |
| TavusVideoConsultation.Consultation.ToggleMute | src/components/video/tavusvideoconsultation.tsx:241-250 | with a stream, the mute flag flips and every audio track ends enabled exactly when the call is not muted; other tracks are kept; without a stream nothing changes |
| TavusVideoConsultation.Consultation.ToggleVideo | src/components/video/tavusvideoconsultation.tsx:252-261 | with a stream, the video flag flips and every video track ends enabled exactly when video is on; without a stream nothing changes |
| TavusVideoConsultation.Consultation.EndConsultation | src/components/video/tavusvideoconsultation.tsx:219-239 | a real conversation is ended, every track is stopped and the stream released, the status goes back to idle and the dialog is closed |
| TavusVideoConsultation.Consultation.Unmount | src/components/video/tavusvideoconsultation.tsx:27-40 | unmounting stops the tracks of the current stream and ends the current conversation when it is real |
| TavusVideoConsultation.EndThenUnmount | src/components/video/tavusvideoconsultation.tsx:36-37 | ending a real conversation and then unmounting asks the service to end that same conversation twice |
| TavusVideoConsultation.StartErrorText | src/components/video/tavusvideoconsultation.tsx:198-210 | a message naming the API key shows the key text; otherwise a message naming the persona shows the persona text; any other message is shown as it is |
| TavusVideoConsultation.OffersExternalLink | src/components/video/tavusvideoconsultation.tsx:166-168 | the external link is offered exactly when the conversation URL is present and contains 'tavus' or 'daily.co' (such a URL is never empty) |
| ChatInterface.UserMessage | src/components/chat/chatinterface.tsx:208-216 | the displayed user turn has the user sender and id, keeps non-empty content, and carries an image URL exactly when image data was sent |
| ChatInterface.PersistedCopy | src/components/chat/chatinterface.tsx:222-226 | the saved copy differs from the displayed turn only in the image URL, which becomes the placeholder when an image was sent |
| ChatInterface.PersistedCopyDropsImageData | src/components/chat/chatinterface.tsx:222-226 | no saved user turn carries the image's data URL |
| ChatInterface.SendReply | src/components/chat/chatinterface.tsx:229-255 | the assistant text of a send: the model's content, 'No response received.' when there is none, and on failure the image-trouble text for an image or the technical-difficulties text otherwise |
| ChatInterface.SendReplyIsServiceReply | src/components/chat/chatinterface.tsx:232-255 | that text is what analyzeImage returns (with the default caption for empty content) when an image was sent, and what generateResponse returns otherwise |
| ChatInterface.AttachAudio | src/components/chat/chatinterface.tsx:282-286 | the audio URL is set on exactly the messages with the given id; every other message and the length are kept |
| ChatInterface.FallbackWithoutKeyOr401 | src/components/chat/chatinterface.tsx:348-355 | a thrown message that names neither an API key nor a 401 gives the generic trouble text |
| ChatInterface.CheckUpload | src/components/chat/chatinterface.tsx:462-471 | a file passes exactly when its type starts with 'image/' and it has at most 10 MB; a non-image is refused before the size is looked at |
| ChatInterface.ExtractBase64OfDataUrl | src/components/chat/chatinterface.tsx:482-484 | splitting the data URL at its comma gives back the base64 payload |
| ChatInterface.ChatRequest | src/components/chat/chatinterface.tsx:232-255 | an image send builds no chat request; any other send builds exactly the text system prompt (voice line iff a voice message) first, then each history turn in order, then the user's content |
| ChatInterface.ChatScreen.constructor | src/components/chat/chatinterface.tsx:72-98 | a fresh screen: only the greeting, no history, no session, no guard set |
| ChatInterface.ChatScreen.SaveMessageToHistory | src/components/chat/chatinterface.tsx:178-201 | without a session or while a save runs nothing is stored; otherwise a fault-free save appends the message to the current session, and any save either does that or changes nothing |
| ChatInterface.ChatScreen.PostMessage | src/components/chat/chatinterface.tsx:218-227 | the turn is shown at the end of the transcript and its saved form is stored as saveMessageToHistory would |
| ChatInterface.ChatScreen.SendTurns | src/components/chat/chatinterface.tsx:218-274 | one user turn and one assistant turn are appended to the transcript and to the history, and each is saved |
| ChatInterface.ChatScreen.AttachSpeech | src/components/chat/chatinterface.tsx:276-292 | when ElevenLabs is configured and the speech call returns audio, every message with the reply's id gains the audio URL and nothing else changes; otherwise, including any speech failure, the transcript is unchanged |
| ChatInterface.ChatScreen.HandleSendMessage | src/components/chat/chatinterface.tsx:203-309 | a send is refused exactly when the content is blank and there is neither audio nor image; an accepted one appends exactly the user turn and the reply to the transcript and the history, clears the input, keeps earlier turns other than the reply's id, and stores both turns with the image data replaced; the reply carries the audio URL exactly when ElevenLabs is configured and returns audio |
| ChatInterface.ChatScreen.LoadChatSession | src/components/chat/chatinterface.tsx:105-176 | a stored session is adopted and, when it has messages, shown after the greeting with the history rebuilt from them; without an id a new "New Chat" session is created and announced; every failure leaves the transcript as it was and the session is marked loaded |
| ChatInterface.ChatScreen.OnSessionId | src/components/chat/chatinterface.tsx:85-103 | a missing or changed session id clears the initial-message guards; a stored session with messages then shows the greeting and those messages with the history rebuilt from them; otherwise a missing or changed id leaves only the greeting and an empty history, and an unchanged id keeps both |
| ChatInterface.ChatScreen.ProcessInitialMessage | src/components/chat/chatinterface.tsx:312-329 | the initial message is sent exactly when it is non-blank, differs from the last one processed, nothing is in flight, and the session has loaded; then it is recorded, the transcript gains the user turn with that text and the reply to it (voiced iff Speaks(env)), and the history gains both turns; otherwise nothing changes |
| ChatInterface.ChatScreen.HandleImageUpload | src/components/chat/chatinterface.tsx:456-508 | no file does nothing; a non-image, a file over 10 MB, a read error and a data URL without base64 each give their alert and send nothing; otherwise the image is sent and shown as a JPEG data URL |
| ChatInterface.ChatSttFallback | src/components/chat/chatinterface.tsx:348-355 | the not-available text exactly when the thrown message names an API key or a 401; the generic trouble text otherwise |
| ChatInterface.TranscribeForChat | src/components/chat/chatinterface.tsx:331-358 | without an ElevenLabs key the chat shows the generic trouble text, because its own thrown message names neither; with a key it shows exactly what transcribeAudio returns, so its blank check and not-available branch never fire |
| ChatInterface.ExtractBase64 | src/components/chat/chatinterface.tsx:480-488 | a payload is found only when the data URL has a comma, and it is non-empty and comma-free; a URL without a comma is refused |
| ChatInterface.ChatScreen.RebuildHistory | src/components/chat/chatinterface.tsx:143-152 | one history turn per stored message, in order, with the message's role and content |
| ChatInterface.ChatScreen.Exchange | src/components/chat/chatinterface.tsx:207-309 | an accepted send appends exactly the user turn and the reply to the transcript and the history, keeps earlier turns other than the reply's id, clears the input, ends loading, and stores both turns with the image data replaced; the reply carries the audio URL exactly when ElevenLabs is configured and returns audio |
| ChatHistoryModal.Without | src/components/chat/chathistorymodal.tsx:59 | the filtered list holds exactly the entries of the old list whose id differs from the deleted one, and is no longer |
| ChatHistoryModal.WithoutAbsent | src/components/chat/chathistorymodal.tsx:59 | filtering out an id no entry carries leaves the list unchanged |
| ChatHistoryModal.WithoutAppend | src/components/chat/chathistorymodal.tsx:59 | the filter keeps the relative order of the entries: it distributes over concatenation |
| ChatHistoryModal.Renamed | src/components/chat/chathistorymodal.tsx:82-86 | the renamed list has the same length, entries with the edited id take the new name and every other entry is unchanged |
| ChatHistoryModal.Preview | src/components/chat/chathistorymodal.tsx:116-127 | 'No messages yet' for an empty session; otherwise the sender label ('You: ' or 'Dr. Medixa: ') followed by the last message, kept whole up to 50 characters and cut to its first 50 plus '...' beyond |
| ChatHistoryModal.SameInstantShowsMinusOneDays | src/components/chat/chathistorymodal.tsx:99-114 | as written, a zero time difference gives a day count of 0 and the label '-1 days ago' |
| ChatHistoryModal.FormatDate | src/components/chat/chathistorymodal.tsx:99-114 | the corrected label agrees with formatDate as written for every positive difference |
| ChatHistoryModal.WithinADayIsToday | src/components/chat/chathistorymodal.tsx:103-106 | with the correction, any difference up to 24 hours, zero included, reads 'Today' |
| ChatHistoryModal.DayCountInRange | src/components/chat/chathistorymodal.tsx:103-110 | between two and seven days the day count is 3 to 7 and the label is that count minus one followed by ' days ago' |
| ChatHistoryModal.HistoryModal.constructor | src/components/chat/chathistorymodal.tsx:19-21 | the dialog opens with an empty list, no session being renamed and no close requested yet |
| ChatHistoryModal.HistoryModal.LoadSessions | src/components/chat/chathistorymodal.tsx:29-39 | after a successful load the list is the signed-in patient's sessions from the store, newest first; a failure keeps the previous list; the store is not changed |
| ChatHistoryModal.HistoryModal.OpenNewSession | src/components/chat/chathistorymodal.tsx:41-46 | a created session is put first in the list, stored and selected; when creation fails nothing changes and nothing is selected |
| ChatHistoryModal.HistoryModal.HandleCreateNewSession | src/components/chat/chathistorymodal.tsx:41-50 | a created session is put first in the list, stored and selected, and the dialog is closed once; when creation fails nothing changes, nothing is selected and the dialog stays open |
| ChatHistoryModal.HistoryModal.HandleDeleteSession | src/components/chat/chathistorymodal.tsx:52-70 | nothing happens unless confirmed and deleted; a deleted session leaves both the store and the list, and deleting the current session creates, lists and selects a new one without closing the dialog |
| ChatHistoryModal.HistoryModal.HandleEditSessionName | src/components/chat/chathistorymodal.tsx:72-75 | the edited session and its name are recorded; the list is unchanged |
| ChatHistoryModal.HistoryModal.HandleCancelEdit | src/components/chat/chathistorymodal.tsx:94-97 | the edit state is cleared; the list is unchanged |
| ChatHistoryModal.HistoryModal.HandleSaveSessionName | src/components/chat/chathistorymodal.tsx:77-92 | a blank name or a failed update changes nothing; otherwise the trimmed name is stored, the list entries with that id show the stored name, and the edit state is cleared |
| ChatHistoryModal.HistoryModal.HandleSessionClick | src/components/chat/chathistorymodal.tsx:178-183 | a click selects the card's session and closes the dialog once, unless that card is being renamed, in which case neither happens |
| ChatHistoryModal.DiffDays | src/components/chat/chathistorymodal.tsx:103 | the rounded-up day count is zero only for a zero difference, and its days span the difference by less than one day |
| ChatHistoryModal.FormatDateAsWritten | src/components/chat/chathistorymodal.tsx:99-114 | as written: a positive difference within a day reads 'Today', within two days 'Yesterday', beyond seven days the locale date |
| ChatHistoryModal.SenderLabel | src/components/chat/chathistorymodal.tsx:126 | 'You: ' exactly for the user's messages; every label ends with ': ' |
| PatientDashboard.FindLabel | src/pages/patientdashboard.tsx:482-485 | no label exactly when no entry has the id; otherwise the label of the first entry carrying that id |
| PatientDashboard.FindLabelOfEntry | src/pages/patientdashboard.tsx:416-423 | in a table whose ids are distinct, looking up an entry's id gives that entry's label |
| PatientDashboard.ViewTitle | src/pages/patientdashboard.tsx:482-485 | an unknown view is titled 'Dr. Medixa Chat'; a known view is titled with the label of a sidebar entry for that view |
| PatientDashboard.ViewTitleOfEntry | src/pages/patientdashboard.tsx:416-423 | each of the six sidebar views is titled with its own label |
| PatientDashboard.Dashboard.constructor | src/pages/patientdashboard.tsx:356-366 | the dashboard opens on the chat view with the sidebar closed, no panel, no session, no initial message and key 0 |
| PatientDashboard.Dashboard.HandleStartNewChat | src/pages/patientdashboard.tsx:375-390 | the chat is remounted under the next key with no session, carrying the message only when it is not blank; the view and sidebar are kept |
| PatientDashboard.Dashboard.HandleNewChatClick | src/pages/patientdashboard.tsx:392-400 | the new-chat panel is shown, the session and message are cleared and the key advances |
| PatientDashboard.Dashboard.HandleSessionChange | src/pages/patientdashboard.tsx:402-406 | the chat shows the given session under the same key, keeping the pending message |
| PatientDashboard.Dashboard.HandleSelectSession | src/pages/patientdashboard.tsx:408-414 | the chat is remounted under the next key on the selected session with no initial message |
| PatientDashboard.Dashboard.HandleNavigation | src/pages/patientdashboard.tsx:425-435 | the view changes and the sidebar closes; staying on the chat keeps the chat state, leaving it resets the chat and advances the key |
| NewChatInterface.Launcher.constructor | src/components/chat/newchatinterface.tsx:9-11 | the launcher starts with an empty input, not starting and no processed quick start |
| NewChatInterface.Launcher.HandleStartChat | src/components/chat/newchatinterface.tsx:13-31 | ignored while starting; otherwise onStartChat gets the trimmed text (and the input is cleared) or no argument for blank text, and a reset is scheduled; a pending reset exists exactly while starting |
| NewChatInterface.Launcher.HandleKeyPress | src/components/chat/newchatinterface.tsx:33-38 | any key other than a plain Enter changes nothing; a plain Enter does what handleStartChat does: nothing while starting, otherwise the chat starts with the trimmed text and the input is cleared, or with no message when the input is blank, and the reset is scheduled |
| NewChatInterface.Launcher.HandleQuickStart | src/components/chat/newchatinterface.tsx:40-59 | ignored while starting or for a message already processed; otherwise the message is recorded as processed, sent, and its release scheduled; the input is untouched |
| NewChatInterface.Launcher.TimerFires | src/components/chat/newchatinterface.tsx:30-57 | the scheduled reset ends starting and releases the quick start it was scheduled for, leaving no processed message |
| DoctorDashboard.FilteredPatients | src/pages/doctordashboard.tsx:104-111 | a patient is listed exactly when it is present and its name or condition contains the search term ignoring case and the status filter is 'All' or its status ('Stable' by default); the list is never longer than the input (its order is stated by FilteredPatientsAppend) |
| DoctorDashboard.FilteredPatientsAppend | src/pages/doctordashboard.tsx:104-111 | the filter distributes over concatenation, so the listed entries keep their original order |
| DoctorDashboard.EmptySearchKeepsAll | src/pages/doctordashboard.tsx:104-111 | an empty search with the 'All' filter lists every present patient, in order |
| DoctorDashboard.PatientAge | src/pages/doctordashboard.tsx:150-160 | 'N/A' exactly without a date of birth; otherwise the age is the number of birthdays reached: today is on or after the age-th anniversary and before the next |
| DoctorDashboard.PatientInitials | src/pages/doctordashboard.tsx:162-165 | 'N/A' for an empty name; otherwise, when the space-separated words are all non-empty, one letter per word: each word's first letter upper-cased, in order; a one-word name gives its upper-cased first letter; never more letters than words |
| DoctorDashboard.TwoWordInitials | src/pages/doctordashboard.tsx:162-165 | a first and last name give their two upper-cased first letters |
| DoctorDashboard.Transformed | src/pages/doctordashboard.tsx:563-569 | a loaded patient keeps its identity, name and birth date, is 'Chronic condition' exactly when it has a medical history ('General care' otherwise), and is 'Stable' with priority 'Low' |
| DoctorDashboard.TransformAll | src/pages/doctordashboard.tsx:563-569 | every loaded patient is transformed, one entry each, in order |
| DoctorDashboard.LoadedPatientsAreStable | src/pages/doctordashboard.tsx:109 | a freshly loaded list passes the 'Stable' status filter whole |
| DoctorDashboard.UnreadCount | src/pages/doctordashboard.tsx:590 | the unread count never exceeds the number of notifications |
| DoctorDashboard.MarkRead | src/pages/doctordashboard.tsx:619-621 | the notification with the id becomes read and every other one is unchanged, in place |
| DoctorDashboard.MarkAllRead | src/pages/doctordashboard.tsx:632 | every notification becomes read and nothing else about it changes |
| DoctorDashboard.MarkReadCountsDown | src/pages/doctordashboard.tsx:619-622 | with distinct ids, marking an unread notification lowers the unread count by exactly one |
| DoctorDashboard.MarkReadMissing | src/pages/doctordashboard.tsx:619-621 | marking an id no notification has leaves the list unchanged |
| DoctorDashboard.AllReadHasNoUnread | src/pages/doctordashboard.tsx:632-633 | after marking all, no notification is unread, matching the counter's reset to 0 |
| DoctorDashboard.MarkReadKeepsCount | src/pages/doctordashboard.tsx:619-622 | marking an unread notification keeps the ids distinct and takes one off the unread count, so the decremented counter stays in agreement |
| DoctorDashboard.BadgeText | src/pages/doctordashboard.tsx:827-829 | the bell badge is hidden exactly when the count is not positive, shows the digit up to 9 and '9+' above |
| DoctorDashboard.DoctorBoard.constructor | src/pages/doctordashboard.tsx:540-545 | the dashboard starts loading with no patients or notifications, the mock appointments and a zero counter that agrees with the list |
| DoctorDashboard.DoctorBoard.LoadDoctorData | src/pages/doctordashboard.tsx:555-582 | loaded patients replace the list, transformed; a failure keeps the old list; loading ends either way |
| DoctorDashboard.DoctorBoard.LoadNotifications | src/pages/doctordashboard.tsx:584-595 | loaded notifications replace the list and the counter becomes their unread count, whatever it was before, so a drifted counter is put back in step; a failure changes neither |
| DoctorDashboard.DoctorBoard.MarkNotificationAsRead | src/pages/doctordashboard.tsx:615-626 | on success the notification is marked read and the counter drops by one, not below 0; when it was unread the counter still agrees with the list; a failure changes nothing |
| DoctorDashboard.DoctorBoard.MarkAllAsRead | src/pages/doctordashboard.tsx:628-637 | on success every notification is read and the counter is 0, which agrees with the list even after drift; a failure changes nothing |
| DoctorDashboard.DoctorBoard.HandlePatientAccepted | src/pages/doctordashboard.tsx:639-643 | both lists are reloaded; a successful notification load resynchronises the counter with the list; loading ends |
| DoctorDashboard.DoctorBoard.AddPatient | src/pages/doctordashboard.tsx:133-135 | the new patient is appended to the list |
| DoctorDashboard.DoctorBoard.ScheduleAppointment | src/pages/doctordashboard.tsx:137-139 | the new appointment is appended to the list |
| NotificationModal.Unread | src/components/doctor/notificationmodal.tsx:135 | the unread list holds exactly the notifications that are not read (its order is stated by UnreadAppend) |
| NotificationModal.ReadOnes | src/components/doctor/notificationmodal.tsx:136 | the read list holds exactly the notifications that are read (its order is stated by ReadOnesAppend) |
| NotificationModal.UnreadAppend | src/components/doctor/notificationmodal.tsx:135 | the unread filter works entry by entry, so it distributes over concatenation and keeps the notifications' order |
| NotificationModal.ReadOnesAppend | src/components/doctor/notificationmodal.tsx:136 | the read filter distributes over concatenation in the same way and keeps the order |
| NotificationModal.ListsPartition | src/components/doctor/notificationmodal.tsx:135-136 | the two lists together hold every notification exactly once |
| NotificationModal.PartitionStep | src/components/doctor/notificationmodal.tsx:135-136 | the split of the list's tail extends to the whole list, whichever side the head falls on |
| NotificationModal.ConsKeepsSplit | src/components/doctor/notificationmodal.tsx:135-136 | adding an element in front of either part of a split gives a split of the longer list |
| NotificationModal.UnreadListMatchesCount | src/components/doctor/notificationmodal.tsx:135 | the unread list is exactly as long as the dashboard's unread count of the same notifications |
| NotificationModal.ShownRead | src/components/doctor/notificationmodal.tsx:276 | the read section shows the whole read list when it has ten or fewer entries, and exactly its first ten otherwise |
| NotificationModal.ActionCardsNeedAnAction | src/components/doctor/notificationmodal.tsx:139-233 | a card offering Accept and Decline is never marked read by a click on the card |
| NotificationModal.SameInstantShowsMinusOneDays | src/components/doctor/notificationmodal.tsx:118-133 | as written, a notification from the current instant reads '-1 days ago' |
| NotificationModal.FormatDate | src/components/doctor/notificationmodal.tsx:118-133 | the corrected label agrees with formatDate as written for every positive difference |
| NotificationModal.WithinADayIsToday | src/components/doctor/notificationmodal.tsx:122-125 | with the correction, any difference up to 24 hours, zero included, reads 'Today at' and the time |
| NotificationModal.NotificationPanel.constructor | src/components/doctor/notificationmodal.tsx:24 | the dialog starts with no request in flight |
| NotificationModal.NotificationPanel.StartAccept | src/components/doctor/notificationmodal.tsx:28-32 | a notification without a request id does nothing; otherwise its request id joins the set in flight; enabled buttons always start, and once started the card's buttons are disabled |
| NotificationModal.NotificationPanel.FinishAccept | src/components/doctor/notificationmodal.tsx:34-56 | on approval the request is 'approved' with the response time, the patient-doctor relationship is added unless its read-back or insert fails, the notification is marked read and the refresh is requested when given; on failure the accept alert is shown and no request or relationship changes; the request leaves the set in flight either way |
| NotificationModal.NotificationPanel.StartReject | src/components/doctor/notificationmodal.tsx:59-66 | nothing happens without a request id or when the reason prompt is cancelled; otherwise the request id joins the set in flight; enabled buttons with a reason always start, and once started the card's buttons are disabled |
| NotificationModal.NotificationPanel.FinishReject | src/components/doctor/notificationmodal.tsx:68-85 | on success the request is 'rejected' with the response time, no relationship is created and the notification is marked read; on failure the decline alert is shown and no request or relationship changes; the request leaves the set in flight either way |
| NotificationModal.NotificationPanel.ClickCard | src/components/doctor/notificationmodal.tsx:233 | a click marks the card read exactly when it is unread and not a patient request |
| NotificationModal.AcceptRoundTrip | src/components/doctor/notificationmodal.tsx:28-56 | an accepted request is in flight, with both buttons disabled, during the approval; afterwards the set in flight is as before and the buttons are enabled again, whatever the server answers |
| NotificationModal.RejectRoundTrip | src/components/doctor/notificationmodal.tsx:58-165 | a declined request is in flight, with both buttons disabled, during the rejection; afterwards the set in flight is as before and the buttons are enabled again, whatever the server answers |
| NotificationModal.DiffDays | src/components/doctor/notificationmodal.tsx:122 | the rounded-up day count is zero only for a zero difference, and its days span the difference by less than one day |
| NotificationModal.FormatDateAsWritten | src/components/doctor/notificationmodal.tsx:118-133 | as written: a positive difference within a day reads 'Today at' the time, within two days 'Yesterday at' the time, beyond seven days the locale date |
| NotificationModal.ShowsActions | src/components/doctor/notificationmodal.tsx:139 | Accept and Decline are offered exactly on unread patient requests that carry a non-empty request id (both directions), so never on a card that a click marks read |
| ReviewCasesModal.FilteredCases | src/components/doctor/reviewcasesmodal.tsx:100-104 | a case is listed exactly when each filter is 'All' or equals the case's status or priority; the list is never longer than the input (its order is stated by FilteredCasesAppend) |
| ReviewCasesModal.FilteredCasesAppend | src/components/doctor/reviewcasesmodal.tsx:100-104 | the case filter distributes over concatenation, so the listed cases keep their original order |
| ReviewCasesModal.AllFiltersKeepEverything | src/components/doctor/reviewcasesmodal.tsx:100-104 | with both filters at 'All' every case is listed, in order |
| ReviewCasesModal.NarrowingStatusRefines | src/components/doctor/reviewcasesmodal.tsx:100-104 | choosing a status only filters the 'All' list further, keeping the order of what remains |
| ReviewCasesModal.CurrentView | src/components/doctor/reviewcasesmodal.tsx:173-300 | the action form shows exactly when an action and a case are chosen, the details exactly when only a case is, and the list exactly when no case is |
| ReviewCasesModal.SubmitDisabled | src/components/doctor/reviewcasesmodal.tsx:277 | the button is enabled exactly when not submitting and the action is an approval or the response is not blank: off while submitting, an idle approval always on, an idle non-approval on exactly with a non-blank response |
| ReviewCasesModal.CaseReview.constructor | src/components/doctor/reviewcasesmodal.tsx:90-96 | the dialog starts on the list with both filters at 'All', no action, an empty response and nothing submitted |
| ReviewCasesModal.CaseReview.SelectCase | src/components/doctor/reviewcasesmodal.tsx:474 | clicking a case opens its details |
| ReviewCasesModal.CaseReview.BackToCases | src/components/doctor/reviewcasesmodal.tsx:306 | leaving the details returns to the list |
| ReviewCasesModal.CaseReview.HandleCaseAction | src/components/doctor/reviewcasesmodal.tsx:135-138 | the chosen action is set with an empty response |
| ReviewCasesModal.CaseReview.BackToCase | src/components/doctor/reviewcasesmodal.tsx:224-270 | leaving the action form clears the action |
| ReviewCasesModal.CaseReview.HandleSubmitAction | src/components/doctor/reviewcasesmodal.tsx:140-165 | a submission happens exactly when a case and an action are chosen; it shows the confirmation, schedules the reset and ends submitting; otherwise nothing changes |
| ReviewCasesModal.CaseReview.ResetFires | src/components/doctor/reviewcasesmodal.tsx:152-157 | the delayed reset clears the confirmation, action, response and case, returning to the list |
| ReviewCasesModal.Passes | src/components/doctor/reviewcasesmodal.tsx:100-104 | with both filters at 'All' every case passes; a passing case has the chosen status and the chosen priority when those are not 'All' |
| ScheduleAppointmentModal.SetField | src/components/doctor/scheduleappointmentmodal.tsx:40-42 | the named field takes the value and every other field keeps its own |
| ScheduleAppointmentModal.SetOwnValue | src/components/doctor/scheduleappointmentmodal.tsx:40-42 | writing a field's own value back leaves the form unchanged |
| ScheduleAppointmentModal.MatchingPatients | src/components/doctor/scheduleappointmentmodal.tsx:36-38 | a patient is offered exactly when its name contains the search text ignoring case; never more than the input (its order is stated by MatchingPatientsAppend) |
| ScheduleAppointmentModal.MatchingPatientsAppend | src/components/doctor/scheduleappointmentmodal.tsx:36-38 | the filter distributes over concatenation, so the listed entries keep their original order |
| ScheduleAppointmentModal.SubmitDisabled | src/components/doctor/scheduleappointmentmodal.tsx:298 | the button is enabled exactly when not submitting and the patient, date, time and reason are all filled in |
| ScheduleAppointmentModal.DefaultFormIsIncomplete | src/components/doctor/scheduleappointmentmodal.tsx:19-29 | the initial form cannot be submitted and, being a video appointment, asks for no location |
| ScheduleAppointmentModal.LocationFollowsType | src/components/doctor/scheduleappointmentmodal.tsx:40-42 | setting the appointment type shows the location field exactly when the type is 'in-person'; editing any other field leaves the field's visibility as it was |
| ScheduleAppointmentModal.ScheduledFrom | src/components/doctor/scheduleappointmentmodal.tsx:60-65 | the saved appointment carries the whole form, status 'Scheduled', the creation stamp and an id of 'A' followed by the current time in ms |
| ScheduleAppointmentModal.Scheduler.constructor | src/components/doctor/scheduleappointmentmodal.tsx:19-32 | the form starts at its defaults with an empty search, the dropdown closed and nothing saved |
| ScheduleAppointmentModal.Scheduler.HandleInputChange | src/components/doctor/scheduleappointmentmodal.tsx:40-42 | the edited field takes the value, the rest of the form is kept |
| ScheduleAppointmentModal.Scheduler.SearchChanged | src/components/doctor/scheduleappointmentmodal.tsx:128-131 | typing in the search box records the text and opens the dropdown without touching the form |
| ScheduleAppointmentModal.Scheduler.HandlePatientSelect | src/components/doctor/scheduleappointmentmodal.tsx:44-52 | the chosen patient's id and name fill the form, the search box shows the name and the dropdown closes |
| ScheduleAppointmentModal.Scheduler.HandleSubmit | src/components/doctor/scheduleappointmentmodal.tsx:54-60 | submitting starts the simulated save, which captures the form as it stands |
| ScheduleAppointmentModal.Scheduler.SaveFires | src/components/doctor/scheduleappointmentmodal.tsx:58-85 | the appointment built from the form captured at submission, not the form as later edited, is saved once; the dialog closes, and the form and search box return to their defaults |
| ScheduleAppointmentModal.EditDuringSaveIsIgnored | src/components/doctor/scheduleappointmentmodal.tsx:40-85 | an edit made between submitting and the timer firing does not reach the saved appointment, which carries the submitted form |
| MyDoctorsModal.DoctorFullName | src/components/patient/mydoctorsmodal.tsx:22-37 | the profile's name when it has one, else 'Doctor at ' and the clinic, else 'Unknown Doctor'; never empty |
| MyDoctorsModal.DoctorInitials | src/components/patient/mydoctorsmodal.tsx:39-45 | a doctor without a profile name, under either fallback name, gets 'DR'; a profile name other than 'Unknown Doctor' and not starting with 'Doctor at' whose words are all non-empty gives one letter per word, each word's first letter upper-cased, in order |
| MyDoctorsModal.NameLikeClinicGetsFallback | src/components/patient/mydoctorsmodal.tsx:41-42 | a real profile name that begins with 'Doctor at' is also given 'DR' |
| MyDoctorsModal.OneWordNameInitial | src/components/patient/mydoctorsmodal.tsx:39-45 | a one-word profile name gives its upper-cased first letter |
| MyDoctorsModal.RequestDoctorFullName | src/components/patient/mydoctorsmodal.tsx:47-54 | the request's doctor name when present, else 'Unknown Doctor' |
| MyDoctorsModal.RequestDoctorInitials | src/components/patient/mydoctorsmodal.tsx:56-62 | 'DR' without a doctor name; otherwise the upper-cased first letters of that name |
| MyDoctorsModal.IsAlreadyConnected | src/components/patient/mydoctorsmodal.tsx:143-145 | true exactly when some connected doctor has that profile id |
| MyDoctorsModal.HasPendingRequest | src/components/patient/mydoctorsmodal.tsx:147-151 | true exactly when some request to that doctor has status 'pending' |
| MyDoctorsModal.BadgeFor | src/components/patient/mydoctorsmodal.tsx:336-388 | 'Connected' exactly when connected; 'Request Pending' exactly when not connected with a pending request; the Send Request button otherwise |
| MyDoctorsModal.LessTotal | src/components/patient/mydoctorsmodal.tsx:158 | the string order of the sort relates any two different strings |
| MyDoctorsModal.LessIrreflexive | src/components/patient/mydoctorsmodal.tsx:158 | no string sorts before itself |
| MyDoctorsModal.LessTransitive | src/components/patient/mydoctorsmodal.tsx:158 | the string order of the sort is transitive |
| MyDoctorsModal.InsertSorted | src/components/patient/mydoctorsmodal.tsx:155-158 | inserting a new specialty into a sorted list keeps it strictly sorted and adds exactly that one element |
| MyDoctorsModal.InsertSortedElems | src/components/patient/mydoctorsmodal.tsx:156 | after the insertion the list holds the old specialties and the new one |
| MyDoctorsModal.AllSpecialtiesAppend | src/components/patient/mydoctorsmodal.tsx:155-157 | the specialties of a longer doctor list are those of the shorter one plus the new doctor's |
| MyDoctorsModal.SortedHasNoDuplicates | src/components/patient/mydoctorsmodal.tsx:154-158 | a strictly sorted list holds each specialty once |
| MyDoctorsModal.LessChain | src/components/patient/mydoctorsmodal.tsx:158 | in a strictly sorted list the first entry sorts before every later one |
| MyDoctorsModal.AddSpecialties | src/components/patient/mydoctorsmodal.tsx:156 | one doctor's specialties are added to the sorted list, which stays strictly sorted and gains exactly them |
| MyDoctorsModal.UniqueSpecialties | src/components/patient/mydoctorsmodal.tsx:153-159 | getUniqueSpecialties lists every specialty of every doctor, each exactly once, in sorted order |
| MyDoctorsModal.FilteredDoctors | src/components/patient/mydoctorsmodal.tsx:161-172 | a doctor is listed exactly when the query is empty or matches, ignoring case, the name, a specialty or the clinic, and the specialty filter is 'All' or one of the doctor's specialties (its order is stated by FilteredDoctorsAppend) |
| MyDoctorsModal.FilteredDoctorsAppend | src/components/patient/mydoctorsmodal.tsx:161-172 | the filter distributes over concatenation, so the listed entries keep their original order |
| MyDoctorsModal.NoQueryListsAll | src/components/patient/mydoctorsmodal.tsx:161-172 | with no query and the 'All' filter every doctor is listed, in order |
| MyDoctorsModal.OfferedSpecialtyIsNotEmpty | src/components/patient/mydoctorsmodal.tsx:153-172 | choosing any specialty offered by the list never gives an empty result |
| MyDoctorsModal.DoctorsDialog.constructor | src/components/patient/mydoctorsmodal.tsx:12-16 | the dialog starts with three empty lists and not loading |
| MyDoctorsModal.DoctorsDialog.LoadData | src/components/patient/mydoctorsmodal.tsx:70-106 | when the patient's doctors and requests both load, the three lists are replaced, a failed doctor search giving an empty list; otherwise the lists are kept; loading ends either way |
| MyDoctorsModal.DoctorsDialog.HandleRequestDoctor | src/components/patient/mydoctorsmodal.tsx:108-118 | a failed request shows the alert and keeps the lists; a sent one adds no alert and reloads: the lists are replaced when both loads succeed and kept when either fails, and loading ends |
| DoctorSearchModal.DoctorFullName | src/components/patient/doctorsearchmodal.tsx:65-67 | the profile's name when it has one, else 'Unknown Doctor' |
| DoctorSearchModal.DoctorInitials | src/components/patient/doctorsearchmodal.tsx:69-73 | one upper-cased first letter per space-separated word of the shown name, in order, when no word is empty; a doctor without a profile name gets 'UD', taken from the fallback name |
| DoctorSearchModal.ShouldSearch | src/components/patient/doctorsearchmodal.tsx:19-23 | a search runs exactly when the dialog is open and the query has a character that is not white space |
| DoctorSearchModal.DisplayFor | src/components/patient/doctorsearchmodal.tsx:241-298 | the spinner exactly while loading; then the results exactly when there are some; then 'No doctors found' exactly for a non-blank query; the search prompt otherwise |
| DoctorSearchModal.ScreenFor | src/components/patient/doctorsearchmodal.tsx:77-95 | the confirmation exactly when submitted, the doctor details exactly when a doctor is selected and not submitted, the search otherwise |
| DoctorSearchModal.DoctorSearch.constructor | src/components/patient/doctorsearchmodal.tsx:11-17 | the dialog starts with no query, results, selection or message, and nothing submitted |
| DoctorSearchModal.DoctorSearch.QueryChanged | src/components/patient/doctorsearchmodal.tsx:19-36 | a search is issued exactly when the dialog is open and the query is not blank; its results replace the list, a failure keeps the old one, and no search keeps the list too |
| DoctorSearchModal.DoctorSearch.Select | src/components/patient/doctorsearchmodal.tsx:251 | choosing a doctor selects it |
| DoctorSearchModal.DoctorSearch.Deselect | src/components/patient/doctorsearchmodal.tsx:102-179 | 'Back' from the doctor details clears the selection |
| DoctorSearchModal.DoctorSearch.HandleRequestDoctor | src/components/patient/doctorsearchmodal.tsx:38-60 | a request is sent exactly when a doctor is selected, carrying its profile id and the message; success shows the confirmation and schedules the reset, failure shows the alert; submitting ends either way |
| DoctorSearchModal.DoctorSearch.ResetFires | src/components/patient/doctorsearchmodal.tsx:46-54 | the delayed reset clears the confirmation, selection, message, query and results and closes the dialog, leaving the search prompt |
| DoctorSearchModal.DoctorSearch.SetMessage | src/components/patient/doctorsearchmodal.tsx:162-163 | the message box takes the typed text and nothing else changes |
| ProfileSettingsModal.OrEmpty | src/components/patient/profilesettingsmodal.tsx:35-42 | a missing text field becomes '', a present one is kept |
| ProfileSettingsModal.JoinedList | src/components/patient/profilesettingsmodal.tsx:43-44 | a missing list becomes ''; a present list becomes its items joined with ', ' |
| ProfileSettingsModal.FormFrom | src/components/patient/profilesettingsmodal.tsx:33-47 | every text field shows the profile's value, or '' when it is missing; the allergy and medication fields show the lists joined with ', ', or '' when missing |
| ProfileSettingsModal.ParseList | src/components/patient/profilesettingsmodal.tsx:79-80 | empty text gives no items; any other text gives one item per comma-separated piece, each piece trimmed, in order |
| ProfileSettingsModal.OrUndefined | src/components/patient/profilesettingsmodal.tsx:73-74 | an empty field is sent as undefined, any other text as itself |
| ProfileSettingsModal.UpdateFrom | src/components/patient/profilesettingsmodal.tsx:70-83 | every text field is copied from the form as typed; the date of birth and gender are sent only when non-empty; both lists are the form text parsed by ParseList |
| ProfileSettingsModal.SplitJoined | src/components/patient/profilesettingsmodal.tsx:43-80 | splitting the ', '-joined text of clean items at commas and trimming each piece gives back the items |
| ProfileSettingsModal.ListRoundTrip | src/components/patient/profilesettingsmodal.tsx:43-80 | a list of non-empty, comma-free, trimmed items survives populating the form and submitting it |
| ProfileSettingsModal.ProfileRoundTrip | src/components/patient/profilesettingsmodal.tsx:33-83 | a profile with clean lists sends back the same lists, the same name and the same date of birth when it has one, and an undefined date when it has none |
| ProfileSettingsModal.SetField | src/components/patient/profilesettingsmodal.tsx:61-63 | the named field takes the value and every other field keeps its text |
| ProfileSettingsModal.ProfileSettings.constructor | src/components/patient/profilesettingsmodal.tsx:14-30 | the form starts empty with no doctors and nothing sent |
| ProfileSettingsModal.ProfileSettings.Open | src/components/patient/profilesettingsmodal.tsx:32-57 | with a profile and the dialog open the form is filled from the profile and the doctors reloaded, a failed load keeping the old list; otherwise nothing changes |
| ProfileSettingsModal.ProfileSettings.HandleInputChange | src/components/patient/profilesettingsmodal.tsx:61-63 | the edited field takes the value, the rest is kept |
| ProfileSettingsModal.ProfileSettings.HandleSubmit | src/components/patient/profilesettingsmodal.tsx:63-91 | the update built from the form is sent; the dialog closes only on success and a failure shows the alert; submitting ends either way |
| ProfileSettingsModal.SubmitDisabled | src/components/patient/profilesettingsmodal.tsx:341 | the button is enabled exactly when nothing is being submitted and the name is not empty |
| DoctorSchedulingModal.ScreenFor | src/components/appointments/doctorschedulingmodal.tsx:162-201 | the confirmation exactly when submitted; otherwise the doctor list exactly on the first step and the form exactly on the second |
| DoctorSchedulingModal.Scheduling.constructor | src/components/appointments/doctorschedulingmodal.tsx:98-105 | the dialog starts on the doctor list with nothing chosen, a video consultation and nothing submitted |
| DoctorSchedulingModal.Scheduling.HandleDoctorSelect | src/components/appointments/doctorschedulingmodal.tsx:109-113 | the doctor is selected, its first offered consultation type is chosen and the form opens; the type is one the doctor offers |
| DoctorSchedulingModal.Scheduling.ChooseConsultationType | src/components/appointments/doctorschedulingmodal.tsx:279-283 | only a type the selected doctor offers can be chosen, and it becomes the consultation type |
| DoctorSchedulingModal.Scheduling.SetDate | src/components/appointments/doctorschedulingmodal.tsx:307 | the date field takes the input |
| DoctorSchedulingModal.Scheduling.ChooseTime | src/components/appointments/doctorschedulingmodal.tsx:320-325 | a time slot from the offered list becomes the selected, non-empty time |
| DoctorSchedulingModal.Scheduling.SetSymptoms | src/components/appointments/doctorschedulingmodal.tsx:346 | the symptoms field takes the input |
| DoctorSchedulingModal.Scheduling.Back | src/components/appointments/doctorschedulingmodal.tsx:250-358 | 'Back' returns to the doctor list and, changing only the step, keeps the selection |
| DoctorSchedulingModal.Scheduling.HandleSubmit | src/components/appointments/doctorschedulingmodal.tsx:115-118 | submitting through the enabled button (date, time and non-blank symptoms, not already submitting) starts the simulated request, which disables the button |
| DoctorSchedulingModal.Scheduling.RequestTimerFires | src/components/appointments/doctorschedulingmodal.tsx:120-122 | the simulated request completes: submitting ends and the confirmation shows |
| DoctorSchedulingModal.Scheduling.ResetTimerFires | src/components/appointments/doctorschedulingmodal.tsx:123-132 | the reset closes the dialog and clears doctor, date, time and symptoms back to the doctor list, leaving the consultation type as it was |
| DoctorSchedulingModal.SubmitDisabled | src/components/appointments/doctorschedulingmodal.tsx:365 | the button is enabled exactly when nothing is being submitted, a date and a time are chosen and the symptoms have a character that is not white space |
| HealthWorkerDashboard.FilteredPatients | src/pages/healthworkerdashboard.tsx:151-157 | a patient is listed exactly when the name, room number or condition contains the term ignoring case and the status filter is 'All' or the patient's status; never longer than the ward (its order is stated by FilteredPatientsAppend) |
| HealthWorkerDashboard.FilteredPatientsAppend | src/pages/healthworkerdashboard.tsx:151-157 | the filter distributes over concatenation, so the listed entries keep their original order |
| HealthWorkerDashboard.EmptySearchListsAll | src/pages/healthworkerdashboard.tsx:151-157 | an empty search with the 'All' filter lists the whole ward, in order |
| HealthWorkerDashboard.CountStatus | src/pages/healthworkerdashboard.tsx:253-279 | a status count never exceeds the number of patients |
| HealthWorkerDashboard.CountIsFilteredLength | src/pages/healthworkerdashboard.tsx:151-279 | each summary card's count equals the length of the list shown when filtering by that status with no search |
| HealthWorkerDashboard.StatusCountsCoverWard | src/pages/healthworkerdashboard.tsx:241-279 | the four status counts add up to the total shown on the first card |
| HealthWorkerDashboard.VitalStatus | src/pages/healthworkerdashboard.tsx:169-186 | a heart rate below 60 or above 100, a temperature above 100.4 and a saturation below 95 are red; other numbers of those kinds are green; text and unknown kinds, and only they, are unassessed |
| HealthWorkerDashboard.TemperatureAndOxygenMonotone | src/pages/healthworkerdashboard.tsx:176-183 | a higher temperature is never less alarming and a higher saturation never more |
| HealthWorkerDashboard.CardTones | src/pages/healthworkerdashboard.tsx:360-366 | the three readings on a card are always assessed, the heart rate red exactly outside 60-100 |
| HealthWorkerDashboard.MatchesSearch | src/pages/healthworkerdashboard.tsx:152-154 | the empty search term matches every patient |
| HealthWorkerDashboard.ShorterTermKeepsMatch | src/pages/healthworkerdashboard.tsx:152-154 | deleting characters from the end of the search term never drops a patient |
| PatientAnalysisInterface.TenthsToString | src/components/healthworker/patientanalysisinterface.tsx:62-65 | a whole reading prints without a decimal point, any other with a point and its last digit |
| PatientAnalysisInterface.InitialVitals | src/components/healthworker/patientanalysisinterface.tsx:60-68 | the form starts from the last recorded blood pressure and from each numeric reading written out as its decimal string (never empty), with pain and glucose empty |
| PatientAnalysisInterface.SetVital | src/components/healthworker/patientanalysisinterface.tsx:77-79 | the named reading takes the value and every other reading keeps its own |
| PatientAnalysisInterface.Without | src/components/healthworker/patientanalysisinterface.tsx:88-90 | the filtered list holds exactly the other symptoms and is never longer (its order is stated by WithoutAppend and WithoutAt) |
| PatientAnalysisInterface.WithoutAppend | src/components/healthworker/patientanalysisinterface.tsx:88-90 | removing a symptom distributes over concatenation, so the remaining symptoms keep their order |
| PatientAnalysisInterface.WithoutAt | src/components/healthworker/patientanalysisinterface.tsx:88-90 | in a list without duplicates, removing the entry at position k gives exactly the entries before it followed by the entries after it |
| PatientAnalysisInterface.WithoutAbsent | src/components/healthworker/patientanalysisinterface.tsx:88-90 | removing a symptom that is not listed leaves the list unchanged |
| PatientAnalysisInterface.AddThenRemove | src/components/healthworker/patientanalysisinterface.tsx:81-90 | removing a symptom just appended restores the list as it was |
| PatientAnalysisInterface.WithoutKeepsClean | src/components/healthworker/patientanalysisinterface.tsx:88-90 | removal keeps the list distinct, trimmed and free of empty entries |
| PatientAnalysisInterface.AppendKeepsClean | src/components/healthworker/patientanalysisinterface.tsx:81-85 | appending a trimmed, non-blank, unlisted entry keeps the list distinct, trimmed and free of empty entries |
| PatientAnalysisInterface.Bulleted | src/components/healthworker/patientanalysisinterface.tsx:122-131 | each entry becomes one '- ' line, in order |
| PatientAnalysisInterface.PainLine | src/components/healthworker/patientanalysisinterface.tsx:118 | the pain line is present exactly when a pain level was entered |
| PatientAnalysisInterface.GlucoseLine | src/components/healthworker/patientanalysisinterface.tsx:119 | the glucose line is present exactly when a reading was entered |
| PatientAnalysisInterface.NoSymptomsIffEmpty | src/components/healthworker/patientanalysisinterface.tsx:122 | 'No specific symptoms reported' stands in exactly when no symptom is listed |
| PatientAnalysisInterface.PromptListsEachSymptom | src/components/healthworker/patientanalysisinterface.tsx:101-141 | every listed symptom appears in the prompt as its own bulleted line |
| PatientAnalysisInterface.PromptReportsPain | src/components/healthworker/patientanalysisinterface.tsx:101-141 | an entered pain level appears in the prompt as '- Pain Level: <n>/10' |
| PatientAnalysisInterface.PromptReportsGlucose | src/components/healthworker/patientanalysisinterface.tsx:101-141 | an entered glucose reading appears in the prompt as '- Blood Glucose: <n> mg/dL' |
| PatientAnalysisInterface.NoOptionalLines | src/components/healthworker/patientanalysisinterface.tsx:118-119 | without pain or glucose entries only an empty line is left between the main readings and the symptoms |
| PatientAnalysisInterface.AskForAnalysis | src/components/healthworker/patientanalysisinterface.tsx:143 | the prompt goes to the model as the only user message after the system prompt, with no history, image or voice, and the reply is the service's |
| PatientAnalysisInterface.Analysis.constructor | src/components/healthworker/patientanalysisinterface.tsx:59-75 | the view starts from the patient's last vitals with no symptoms, observations or analysis |
| PatientAnalysisInterface.Analysis.HandleVitalChange | src/components/healthworker/patientanalysisinterface.tsx:77-79 | the edited reading takes the value, the others are kept |
| PatientAnalysisInterface.Analysis.TypeSymptom | src/components/healthworker/patientanalysisinterface.tsx:501 | the symptom box takes the typed text |
| PatientAnalysisInterface.Analysis.TypeObservations | src/components/healthworker/patientanalysisinterface.tsx:542 | the observations take the typed text |
| PatientAnalysisInterface.Analysis.AddSymptom | src/components/healthworker/patientanalysisinterface.tsx:81-86 | a symptom is added exactly when the input is not blank and its trimmed text is not yet listed; it is appended trimmed and the input cleared; otherwise nothing changes; the list stays distinct and trimmed |
| PatientAnalysisInterface.Analysis.HandleKeyPress | src/components/healthworker/patientanalysisinterface.tsx:92-97 | Enter adds the symptom under the same rule; any other key changes nothing |
| PatientAnalysisInterface.Analysis.RemoveSymptom | src/components/healthworker/patientanalysisinterface.tsx:88-90 | the symptom is no longer listed; an unlisted symptom changes nothing; a listed one is cut out at its position and the others keep their order |
| PatientAnalysisInterface.Analysis.GenerateAiAnalysis | src/components/healthworker/patientanalysisinterface.tsx:99-151 | the assembled prompt is sent as the only user message and the reply becomes the analysis, the technical-difficulties text when the service fails; analyzing ends |
| PatientAnalysisInterface.Analysis.SavePatientData | src/components/healthworker/patientanalysisinterface.tsx:153-155 | saving starts |
| PatientAnalysisInterface.Analysis.SaveTimerFires | src/components/healthworker/patientanalysisinterface.tsx:156-159 | the simulated save ends and shows 'Patient data saved successfully!' |
| PatientAnalysisInterface.AnalysisPrompt | src/components/healthworker/patientanalysisinterface.tsx:102-141 | the analysis prompt opens with the introduction and carries the instructions to the model |
| PatientAnalysisInterface.PromptStartsWithIntro | src/components/healthworker/patientanalysisinterface.tsx:102-105 | the patient details, and so the prompt, open with the introduction |
| PatientAnalysisInterface.PromptCarriesInstructions | src/components/healthworker/patientanalysisinterface.tsx:122-141 | the closing part of the prompt contains the instructions to the model |
| PatientAnalysisInterface.PromptFrame | src/components/healthworker/patientanalysisinterface.tsx:102-141 | the prompt assembled from its parts opens with the introduction and contains the instructions |
| MedicalRecordsInterface.FilteredRecords | src/components/healthworker/medicalrecordsinterface.tsx:112-121 | a record is listed exactly when the patient name, title or author contains the search text ignoring case and each of the type, status and priority filters is 'All' or the record's value; never longer than the input (its order is stated by FilteredRecordsAppend) |
| MedicalRecordsInterface.FilteredRecordsAppend | src/components/healthworker/medicalrecordsinterface.tsx:112-121 | the filter distributes over concatenation, so the listed entries keep their original order |
| MedicalRecordsInterface.EverythingShownInitially | src/components/healthworker/medicalrecordsinterface.tsx:104-121 | with the initial empty search and 'All' filters every record is listed, in order |
| MedicalRecordsInterface.NarrowerKeepsLess | src/components/healthworker/medicalrecordsinterface.tsx:112-121 | a record kept by narrower criteria (a longer search text, a filter set where it was 'All') is kept by the wider ones |
| MedicalRecordsInterface.NarrowingRefines | src/components/healthworker/medicalrecordsinterface.tsx:112-121 | the narrower list is the wider list filtered again, so narrowing never adds a record |
| MedicalRecordsInterface.AttachmentLine | src/components/healthworker/medicalrecordsinterface.tsx:394-397 | the attachment line shows exactly when the record has attachments, with their number |
| MedicalRecordsInterface.PriorityFilterDecidesBadge | src/components/healthworker/medicalrecordsinterface.tsx:370 | under a priority filter other than 'All', every listed record carries the priority badge, except under the 'Normal' filter, where none does |
| Login.HomeOf | src/pages/login.tsx:81-92 | every role chosen at sign-up lands on a dashboard, never the site root |
| Login.HomeOfStoredRole | src/pages/login.tsx:61-74 | a signed-in user lands on the dashboard of the stored role, and on the site root exactly when the stored role is none of the three |
| Login.LoginAndSignupAgree | src/pages/login.tsx:61-92 | signing in and signing up send a user of the same role to the same dashboard |
| Login.MentionsTimeout | src/pages/login.tsx:108-110 | a message mentioning 'Login timeout' or 'Signup timeout' also mentions 'timeout' |
| Login.TimedOutBranchUnreachable | src/pages/login.tsx:100-115 | as written, the 'Request timed out' wording is never chosen, whatever the message |
| Login.ErrorKindOf | src/pages/login.tsx:100-115 | in the corrected order, the timed-out wording is chosen exactly for a message naming a sign-in or sign-up timeout and none of the four earlier triggers; the default wording exactly when there is no message |
| Login.LoginTimeoutWording | src/pages/login.tsx:100-115 | a message naming 'Login timeout' and no other trigger reads as a connection problem as written and as timed out in the corrected order |
| Login.LoginTimeoutReadsDifferently | src/pages/login.tsx:108-111 | the message 'Login timeout' is worded differently by the two orders |
| Login.OrdersAgreeElsewhere | src/pages/login.tsx:100-115 | the two orders agree on every message that names neither specific timeout |
| Login.UnrecognisedShownVerbatim | src/pages/login.tsx:112-113 | a non-empty message matching none of the known triggers is shown as it is, in either order |
| Login.ShownVerbatimWithoutKeyLetters | src/pages/login.tsx:100-113 | a non-empty message lacking a key letter of each trigger is shown as it is, in either order |
| Login.NameRequiredShownVerbatim | src/pages/login.tsx:76-113 | the missing-name error is shown as 'Name is required' |
| Login.ErrorTextNonEmpty | src/pages/login.tsx:98-116 | every failure shows some text |
| Login.LoginPage.constructor | src/pages/login.tsx:7-14 | the page starts at the role choice, in sign-in mode, with empty fields and no error |
| Login.LoginPage.HandleRoleSelect | src/pages/login.tsx:45-48 | the role is chosen and the credentials step opens |
| Login.LoginPage.BackToRoles | src/pages/login.tsx:205-207 | going back to the role choice clears the error |
| Login.LoginPage.ToggleMode | src/pages/login.tsx:299-301 | switching between sign-in and sign-up flips the mode and clears the error |
| Login.LoginPage.SetFields | src/pages/login.tsx:245-276 | the name, email and password fields take the typed values |
| Login.LoginPage.HandleSubmit | src/pages/login.tsx:50-119 | nothing without a role; signing in calls login with the credentials and routes by the stored role; signing up needs a non-blank name, calls signup with it trimmed and routes by the chosen role; every failure shows its wording and no navigation happens |
| Login.ErrorKindAsWritten | src/pages/login.tsx:100-115 | as written, the default wording is chosen exactly when there is no message or it is empty; a message shown verbatim mentions neither 'timeout' nor 'fetch' |
| Login.ErrorText | src/pages/login.tsx:98-116 | the verbatim branch shows the message itself; the text is empty only for an empty message in that branch |
| Login.LoginPage.SubmitLogin | src/pages/login.tsx:58-116 | signing in calls login once with the credentials; success routes by the stored role and leaves the error cleared; a rejection adds no navigation and shows the rejection's wording |
| Login.LoginPage.SubmitSignup | src/pages/login.tsx:75-93 | a blank name throws 'Name is required' before any signup call, and that failure is worded like the others; otherwise signup is called once with the trimmed name and the chosen role, and success routes by that role while a rejection shows its wording |
| DashboardLayout.BasePath | src/components/dashboardlayout.tsx:39-46 | each of the three roles maps to a rooted base path with no trailing slash; any other user type falls back to "/" |
| DashboardLayout.StripTrailingSlashes | src/components/dashboardlayout.tsx:108 | the `/\/+$/` replacement yields a prefix of its input that does not end in '/', and everything it cut off was a slash |
| DashboardLayout.StripKeepsUpTo | src/components/dashboardlayout.tsx:108 | the replacement never cuts before the last character that is not a slash |
| DashboardLayout.StripIgnoresExtraSlash | src/components/dashboardlayout.tsx:108 | one more trailing slash does not change the stripped result |
| DashboardLayout.FullPathShape | src/components/dashboardlayout.tsx:108 | for a known role a navigation link's target starts with the role's base path and never ends in '/' |
| DashboardLayout.EmptyPathIsBase | src/components/dashboardlayout.tsx:108 | the empty item path (the overview entry) links to exactly the base path |
| DashboardLayout.TrailingSlashIgnored | src/components/dashboardlayout.tsx:108 | an item path with a trailing slash links to the same place as without it |
| DashboardLayout.SlashEndedLocationHighlightsNothing | src/components/dashboardlayout.tsx:108-109 | for a known role, a current location ending in '/' highlights no navigation item, since no link target ends in '/' |
| DashboardLayout.ThemeOf | src/components/dashboardlayout.tsx:48-71 | health workers get the teal theme, doctors the green one, and patients as well as any unknown user type the blue one |
| DashboardLayout.FullPath | src/components/dashboardlayout.tsx:108 | a link target is the base path, '/', and the item's path with its trailing slashes removed; an item path that is empty or only slashes links to the base path itself; never empty |
| DashboardLayout.StripAppend | src/components/dashboardlayout.tsx:108 | stripping trailing slashes from a concatenation strips only the second part, unless that part is all slashes, in which case the first part is stripped |
| DashboardLayout.PlainPathLink | src/components/dashboardlayout.tsx:108 | an item path not ending in '/' is linked as base path, '/', item path |
| DashboardLayout.IsActive | src/components/dashboardlayout.tsx:109 | an item is highlighted exactly when the current location equals its link target; so the location is non-empty and, for the three roles, starts with the base path and does not end in '/' |

## Left out

- Network I/O: the Supabase query builder and the `fetch` calls to OpenRouter, ElevenLabs and Tavus are oracle parameters. Server-side filters (the `or(...)` doctor search string) and cascades cannot be seen from the client and are not modelled.
- Browser APIs: getUserMedia and MediaRecorder recording, FileReader base64 encoding, object URLs, audio playback, speech synthesis, scrolling, `window.open` and `alert`. Their answers are inputs, or they have no modelled effect.
- `speakText`, `getPersonas`, `getAvailableVoices`, `generateSpeech` playback and the Supabase services other than chat sessions, patient-doctor requests and profile creation are not modelled: they pass data through without local logic.
- Timers: every `setTimeout` is a pending flag plus a method for its firing; the delay values and the exponential back-off times are not modelled.
- Concurrency: one writer at a time. Races on the `saveMessage` read-modify-write and React's stale closures (such as the captured `isSavingMessage`) are not modelled; each handler runs as one atomic step.
- Floating point: vital signs are held in tenths (`int`), and temperature and oxygen thresholds are compared in tenths.
- `toLocale*` date and time formatting is not modelled: a date is a day count handed to the formatter.
- The random `lastVisit` of the doctor dashboard's patient transform (`Math.random`) is left out of the transformed record.
- The emergency call, the `selectedRecord` detail view of the medical records screen, and the alert-only handlers (`handleStartVideoCall`, `handleJoinAppointment`) have no state to model.
- Presentation: colour, icon and CSS class pickers and all JSX.
- MyDoctorsModal.UniqueSpecialties: `getUniqueSpecialties` sorts with the default `sort()`, which compares UTF-16 code units; the model compares characters (`Less`). The two orders agree on characters inside the Basic Multilingual Plane and may differ for characters outside it.
- Text.Lower and Text.Upper fold only ASCII and Latin-1 letters. JavaScript's `toLowerCase` and `toUpperCase` fold all of Unicode (and `toUpperCase` turns 'ß' into 'SS' and 'ÿ' into 'Ÿ'), so letters outside those two ranges stay unfolded in searches and initials.
- Text.Initials: takes the first character of each word, while JavaScript's `n[0]` takes the first UTF-16 code unit; they differ for a word that starts outside the Basic Multilingual Plane.
- ChatHistoryModal.Preview: the 50-character cut counts characters, while `substring(0, 50)` counts UTF-16 code units, so a message with characters outside the Basic Multilingual Plane is cut at a different place.
- DoctorDashboard.PatientAge: takes the date of birth and today as calendar dates. The source parses the ISO date as UTC midnight and reads it back with local-time getters, which can move the birthday by one day in time zones west of UTC.
- SupabaseService.ChatSessionStore: the current profile is fixed for the lifetime of a store; sign-in and sign-out are outside the model.
- ChatInterface.ChatScreen.Valid only pins the greeting's id and sender, not every other message.
- ElevenLabsService.TranscribeAudio: its own ensures covers only the happy path. The failure classification is stated by the lemmas beside it (UnauthorizedIsNotConfigured, BlankTranscriptIsNoSpeech, TranscriptionNeverBlank and the finding below).
- PatientDashboard.ViewTitle: its ensures says the title is the label of some entry with the current view; ViewTitleOfEntry gives the exact label of each entry.
- PatientAnalysisInterface.Analysis.GenerateAiAnalysis: the catch branch that stores 'Unable to generate analysis…' in `aiAnalysis` (src/components/healthworker/patientanalysisinterface.tsx:145-147) is never reached, because generateResponse catches every failure itself.
- PatientAnalysisInterface.Analysis.SavePatientData: the save is simulated in the source; only the saving flag and its timer are modelled.
- DoctorSchedulingModal.Scheduling.HandleSubmit: requires the enabled submit button, because the button is the only way to call it.
- ReviewCasesModal.CaseReview.HandleSubmitAction: the simulated call cannot fail, so the alert branch is not modelled.
- Login.LoginPage.HandleSubmit: uses the corrected order of the error wordings (see Findings); the order as written is ErrorKindAsWritten.
- Login.LoginPage.SubmitLogin: a rejection is worded by the corrected order (ErrorKindOf), so a 'Login timeout' rejection shows 'Request timed out. Please try again.' where login.tsx:108-111 as written shows the connection-timeout text; ErrorKindAsWritten and LoginTimeoutWording state the difference.
- Login.LoginPage.SubmitSignup: a rejection is worded by the corrected order (ErrorKindOf), so a 'Signup timeout' rejection shows 'Request timed out. Please try again.' where login.tsx:108-111 as written shows the connection-timeout text; ErrorKindAsWritten and TimedOutBranchUnreachable state the order as written.
- DoctorDashboard.DoctorBoard.LoadDoctorData: the second call, `getPendingRequests` (doctordashboard.tsx:573-575), and the `pendingRequests` state it fills are not modelled. That list only feeds the pending-request count card (doctordashboard.tsx:213). Its fetch is a database query through a service that is not part of this model.
- DoctorDashboard.DoctorBoard.MarkNotificationAsRead: decrements the unread count even for a notification that is already read, exactly as the source does; the count then drifts below the number of unread notifications. Agreement is kept only when the notification was unread.
- MyDoctorsModal.DoctorsDialog.HandleRequestDoctor: the reload runs to completion before the handler returns; the source does not await it.
- ScheduleAppointmentModal.Scheduler.SearchChanged: typing a new search keeps the previously selected `patientId` in the form, as the source does.
- DoctorSearchModal.DoctorSearch.QueryChanged: a query the guard skips keeps the previous results on screen, as the source does.
- TavusVideoConsultation.Consultation: the mapping from the failure of `startConsultation` sees only the media message; `endConversation` being called twice (by End and then Unmount) is stated by EndThenUnmount rather than prevented.
- NotificationModal.FormatDate: the corrected formatter is proved but the dialog's other members do not format dates.
- The authentication context, the analytics screen, the landing page, the application shell and router, the emergency and doctor-review dialogs are not part of this model: they are static, bootstrap code, or mock data with floating-point rounding.

## Findings

| source | as written | input that shows it | evidently intended | confidence | as-written member | corrected member |
|---|---|---|---|---|---|---|
| src/components/chat/chathistorymodal.tsx:99-114 | `diffDays` is the ceiling of the day difference, and 1 reads as "Today"; a zero difference falls into the `<= 7` branch | a session stamped at the current instant: difference 0, shown as "-1 days ago" | anything less than a day old reads "Today" | high (not executed) | ChatHistoryModal.SameInstantShowsMinusOneDays | ChatHistoryModal.FormatDate |
| src/components/doctor/notificationmodal.tsx:118-133 | the same formatter, copied | a notification created at the current instant shows "-1 days ago" | anything less than a day old reads "Today" | high (not executed) | NotificationModal.SameInstantShowsMinusOneDays | NotificationModal.FormatDate |
| src/services/elevenlabsservice.ts:55-58, 76-81 | the 403 and 429 responses throw texts without their status codes, while the catch looks for '403' and '429' in the message | an HTTP 403 (or 429) response from the speech API | the restricted-access (or service-busy) message | high (not executed) | ElevenLabsService.ForbiddenEndsInTrouble | ElevenLabsService.TranscribeAudioFixed |
| src/pages/login.tsx:108-111 | the generic 'timeout' test comes before the 'Login timeout' / 'Signup timeout' test, so that branch is dead | the error message "Login timeout" gives the connection-trouble text | the request-timed-out text for a sign-in or sign-up timeout | high (not executed) | Login.TimedOutBranchUnreachable | Login.ErrorKindOf |
| src/components/video/tavusvideoconsultation.tsx:27-40, 160 | the cleanup effect is keyed on `conversationId`, so setting the new id runs the previous cleanup, which stops every track of the stream | a granted start: camera and microphone are stopped as soon as the conversation id is set | the tracks are stopped only on unmount | medium (not executed) | TavusVideoConsultation.Consultation.StartConsultation | TavusVideoConsultation.Consultation.StartConsultationFixed |
