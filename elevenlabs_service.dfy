/**
 * The ElevenLabs client: speech-to-text with its error-to-fallback
 * classification, text-to-speech that rethrows, and `isConfigured`.
 *
 * The HTTP exchange is an oracle (`SttCall`, `TtsCall`); the API key is
 * a parameter standing in for the constructor-set `apiKey` field.
 */
module ElevenLabsService {
  import opened Wrappers
  import opened Text

  /** How the speech-to-text request ended. */
  datatype SttCall =
    | SttNetworkFailure(message: string)            // fetch rejected
    | SttHttpFailure(status: nat, statusText: string) // !response.ok
    | SttMalformedBody(message: string)             // response.json() threw
    | SttTranscript(text: Option<string>)           // data.text

  /** `!!this.apiKey`. */
  function IsConfigured(apiKey: string): (r: bool)
    ensures r <==> |apiKey| > 0
  {
    apiKey != ""
  }

  // ---------------------------------------------------------------------
  // Messages thrown inside transcribeAudio
  // ---------------------------------------------------------------------

  const MissingKeyError := "ElevenLabs " + "API key" + " not configured"
  const InvalidKeyError := "Invalid ElevenLabs " + "API key" + ". Please check your API key configuration."
  /** Written around its one 'k' so that proofs can find it. */
  const ForbiddenBeforeK := "ElevenLabs API " + "access forbidden. " + "Please chec"
  const ForbiddenAfterK := " your subscription status."
  const ForbiddenError := ForbiddenBeforeK + "k" + ForbiddenAfterK
  const RateLimitError := "ElevenLabs API rate limit " + "exceeded. Please try again later."
  const NoSpeechError := "No speech detected in audio"
  const SttErrorPrefix := "ElevenLabs Speech-to-Text " + "API error: "

  // ---------------------------------------------------------------------
  // Strings transcribeAudio returns in place of a transcript
  // ---------------------------------------------------------------------

  const NotConfiguredText :=
    "Speech-to-text " + "service is not configured properly. Please type your message instead."
  const RestrictedText :=
    "Speech-to-text " + "service access is restricted. Please type your message instead."
  const UnavailableText :=
    "Speech-to-text " + "service is temporarily unavailable. Please try again later or type your message."
  const NoSpeechText :=
    "I couldn't " + "detect any speech in your recording. Please try speaking more clearly or closer to the microphone."
  const TroubleText :=
    "I had " + "trouble understanding your voice message. Please try speaking more clearly or type your message instead."

  /** The message of `Speech-to-Text API error: ${status} ${statusText}`. */
  function GenericHttpError(status: nat, statusText: string): string
  {
    SttErrorPrefix + NatToString(status) + " " + statusText
  }

  /** The message thrown for a non-OK response, as written. */
  function HttpErrorMessage(status: nat, statusText: string): string
  {
    if status == 401 then InvalidKeyError
    else if status == 403 then ForbiddenError
    else if status == 429 then RateLimitError
    else GenericHttpError(status, statusText)
  }

  /**
   * What the try block of transcribeAudio throws, or `None` when it
   * reaches `return data.text.trim()`.
   */
  function ThrownBy(apiKey: string, call: SttCall, httpError: (nat, string) -> string): Option<string>
  {
    if !IsConfigured(apiKey) then Some(MissingKeyError)
    else match call
      case SttNetworkFailure(m) => Some(m)
      case SttHttpFailure(status, statusText) => Some(httpError(status, statusText))
      case SttMalformedBody(m) => Some(m)
      case SttTranscript(text) =>
        if text.None? || Blank(text.value) then Some(NoSpeechError) else None
  }

  /** The catch block: the first matching substring picks the fallback. */
  function Classify(message: string): string
  {
    if Contains(message, "API key") || Contains(message, "401") then NotConfiguredText
    else if Contains(message, "403") then RestrictedText
    else if Contains(message, "429") then UnavailableText
    else if Contains(message, "No speech detected") then NoSpeechText
    else TroubleText
  }

  /**
   * transcribeAudio never throws: it returns the trimmed transcript, or
   * the fallback its catch block picks for the thrown message.
   */
  function TranscribeAudio(apiKey: string, call: SttCall): (r: string)
    ensures IsConfigured(apiKey) && call.SttTranscript? && call.text.Some? && !Blank(call.text.value) ==>
      r == Trim(call.text.value) && r != ""
  {
    match ThrownBy(apiKey, call, HttpErrorMessage)
    case None => Trim(call.text.value)
    case Some(m) => Classify(m)
  }

  // ---------------------------------------------------------------------
  // Facts about the thrown messages
  // ---------------------------------------------------------------------

  lemma MissingKeyMentionsKey()
    ensures Contains(MissingKeyError, "API key")
  {
    ContainsAt("API key", "API key", 0);
    ContainsExtended("ElevenLabs ", "API key", " not configured", "API key");
  }

  lemma InvalidKeyMentionsKey()
    ensures Contains(InvalidKeyError, "API key")
  {
    ContainsAt("API key", "API key", 0);
    ContainsExtended("Invalid ElevenLabs ", "API key", ". Please check your API key configuration.", "API key");
  }

  lemma NoSpeechLacksKey() ensures !Contains(NoSpeechError, "API key") { NotContainsChar(NoSpeechError, "API key", 0); }
  lemma NoSpeechLacks401() ensures !Contains(NoSpeechError, "401") { NotContainsChar(NoSpeechError, "401", 0); }
  lemma NoSpeechLacks403() ensures !Contains(NoSpeechError, "403") { NotContainsChar(NoSpeechError, "403", 0); }
  lemma NoSpeechLacks429() ensures !Contains(NoSpeechError, "429") { NotContainsChar(NoSpeechError, "429", 0); }

  lemma NoSpeechMentionsNoSpeech()
    ensures Contains(NoSpeechError, "No speech detected")
  {
    ContainsAt(NoSpeechError, "No speech detected", 0);
  }

  lemma ForbiddenLacksKey()
    ensures !Contains(ForbiddenError, "API key")
  {
    var x0 := "ElevenLabs API " + "access forbidden. " + "Please ";
    assert ForbiddenBeforeK == x0 + "chec";
    assert ForbiddenBeforeK[|ForbiddenBeforeK| - 4..] == "chec";
    assert "API key"[..4] == "API ";
    NotContainsAroundChar(ForbiddenBeforeK, 'k', ForbiddenAfterK, "API key", 4);
  }

  lemma ForbiddenLacks401() ensures !Contains(ForbiddenError, "401") { NotContainsChar(ForbiddenError, "401", 0); }
  lemma ForbiddenLacks403() ensures !Contains(ForbiddenError, "403") { NotContainsChar(ForbiddenError, "403", 0); }
  lemma ForbiddenLacks429() ensures !Contains(ForbiddenError, "429") { NotContainsChar(ForbiddenError, "429", 0); }
  lemma ForbiddenLacksNoSpeech() ensures !Contains(ForbiddenError, "No speech detected") { NotContainsChar(ForbiddenError, "No speech detected", 0); }

  lemma RateLimitLacksKey() ensures !Contains(RateLimitError, "API key") { NotContainsChar(RateLimitError, "API key", 4); }
  lemma RateLimitLacks401() ensures !Contains(RateLimitError, "401") { NotContainsChar(RateLimitError, "401", 0); }
  lemma RateLimitLacks403() ensures !Contains(RateLimitError, "403") { NotContainsChar(RateLimitError, "403", 0); }
  lemma RateLimitLacks429() ensures !Contains(RateLimitError, "429") { NotContainsChar(RateLimitError, "429", 0); }
  lemma RateLimitLacksNoSpeech() ensures !Contains(RateLimitError, "No speech detected") { NotContainsChar(RateLimitError, "No speech detected", 0); }

  // ---------------------------------------------------------------------
  // Properties of transcribeAudio as written
  // ---------------------------------------------------------------------

  /** Without a key every call ends in the not-configured text. */
  lemma MissingKeyIsNotConfigured(call: SttCall)
    ensures TranscribeAudio("", call) == NotConfiguredText
  {
    MissingKeyMentionsKey();
  }

  /** A 401 ends in the not-configured text. */
  lemma UnauthorizedIsNotConfigured(apiKey: string, statusText: string)
    requires IsConfigured(apiKey)
    ensures TranscribeAudio(apiKey, SttHttpFailure(401, statusText)) == NotConfiguredText
  {
    InvalidKeyMentionsKey();
  }

  /** A missing or blank transcript ends in the no-speech text. */
  lemma BlankTranscriptIsNoSpeech(apiKey: string, text: Option<string>)
    requires IsConfigured(apiKey)
    requires text.None? || Blank(text.value)
    ensures TranscribeAudio(apiKey, SttTranscript(text)) == NoSpeechText
  {
    NoSpeechLacksKey();
    NoSpeechLacks401();
    NoSpeechLacks403();
    NoSpeechLacks429();
    NoSpeechMentionsNoSpeech();
  }

  /** A 403 ends in the generic text: its message carries no '403'. */
  lemma ForbiddenEndsInTrouble(apiKey: string, statusText: string)
    requires IsConfigured(apiKey)
    ensures TranscribeAudio(apiKey, SttHttpFailure(403, statusText)) == TroubleText
  {
    ForbiddenLacksKey();
    ForbiddenLacks401();
    ForbiddenLacks403();
    ForbiddenLacks429();
    ForbiddenLacksNoSpeech();
  }

  /** A 429 ends in the generic text: its message carries no '429'. */
  lemma RateLimitedEndsInTrouble(apiKey: string, statusText: string)
    requires IsConfigured(apiKey)
    ensures TranscribeAudio(apiKey, SttHttpFailure(429, statusText)) == TroubleText
  {
    RateLimitLacksKey();
    RateLimitLacks401();
    RateLimitLacks403();
    RateLimitLacks429();
    RateLimitLacksNoSpeech();
  }

  /** Every string transcribeAudio can return has visible text. */
  lemma {:induction false} TranscriptionNeverBlank(apiKey: string, call: SttCall)
    ensures !Blank(TranscribeAudio(apiKey, call))
  {
    var r := TranscribeAudio(apiKey, call);
    if ThrownBy(apiKey, call, HttpErrorMessage).None? {
      TrimIdempotent(call.text.value);
    } else {
      NotBlankWhenFirstNonSpace(NotConfiguredText);
      NotBlankWhenFirstNonSpace(RestrictedText);
      NotBlankWhenFirstNonSpace(UnavailableText);
      NotBlankWhenFirstNonSpace(NoSpeechText);
      NotBlankWhenFirstNonSpace(TroubleText);
    }
  }

  // ---------------------------------------------------------------------
  // transcribeAudio with the status kept in the 403 and 429 messages
  // ---------------------------------------------------------------------

  /** Non-OK responses other than 401 throw the generic message, which names the status. */
  function HttpErrorMessageFixed(status: nat, statusText: string): string
  {
    if status == 401 then InvalidKeyError else GenericHttpError(status, statusText)
  }

  function TranscribeAudioFixed(apiKey: string, call: SttCall): (r: string)
    ensures !(call.SttHttpFailure? && (call.status == 403 || call.status == 429)) ==>
      r == TranscribeAudio(apiKey, call)
  {
    match ThrownBy(apiKey, call, HttpErrorMessageFixed)
    case None => Trim(call.text.value)
    case Some(m) => Classify(m)
  }

  lemma StatusDigits(status: nat)
    requires status == 403 || status == 429
    ensures NatToString(status) == (if status == 403 then "403" else "429")
  {
    assert NatToString(status / 10) == NatToString(status / 100) + [DigitChar(status / 10 % 10)];
  }

  /** A character missing from every piece of the generic message is missing from it. */
  lemma AbsentFromGeneric(digits: string, statusText: string, c: char)
    requires c !in "ElevenLabs Speech-to-Text " && c !in "API error: "
    requires c !in digits && c != ' ' && c !in statusText
    ensures c !in SttErrorPrefix + digits + " " + statusText
  {
  }

  /** The status text the generic message may carry: no character the catch block keys on. */
  predicate NeutralStatusText(statusText: string)
  {
    'k' !in statusText && '1' !in statusText && '3' !in statusText && 'N' !in statusText
  }

  lemma GenericLacksKey(digits: string, statusText: string)
    requires digits == "403" || digits == "429"
    requires NeutralStatusText(statusText)
    ensures !Contains(SttErrorPrefix + digits + " " + statusText, "API key")
  {
    AbsentFromGeneric(digits, statusText, 'k');
    NotContainsChar(SttErrorPrefix + digits + " " + statusText, "API key", 4);
  }

  lemma GenericLacks401(digits: string, statusText: string)
    requires digits == "403" || digits == "429"
    requires NeutralStatusText(statusText)
    ensures !Contains(SttErrorPrefix + digits + " " + statusText, "401")
  {
    AbsentFromGeneric(digits, statusText, '1');
    NotContainsChar(SttErrorPrefix + digits + " " + statusText, "401", 2);
  }

  lemma RateLimitedGenericLacks403(statusText: string)
    requires NeutralStatusText(statusText)
    ensures !Contains(SttErrorPrefix + "429" + " " + statusText, "403")
  {
    AbsentFromGeneric("429", statusText, '3');
    NotContainsChar(SttErrorPrefix + "429" + " " + statusText, "403", 2);
  }

  lemma GenericNamesStatus(digits: string, statusText: string)
    ensures Contains(SttErrorPrefix + digits + " " + statusText, digits)
  {
    ContainsAt(digits, digits, 0);
    ContainsExtended(SttErrorPrefix, digits, " " + statusText, digits);
    assert SttErrorPrefix + digits + (" " + statusText) == SttErrorPrefix + digits + " " + statusText;
  }

  /** With the status in the message, 403 reaches the access-restricted text. */
  lemma FixedForbiddenIsRestricted(apiKey: string, statusText: string)
    requires IsConfigured(apiKey)
    requires NeutralStatusText(statusText)
    ensures TranscribeAudioFixed(apiKey, SttHttpFailure(403, statusText)) == RestrictedText
  {
    StatusDigits(403);
    GenericLacksKey("403", statusText);
    GenericLacks401("403", statusText);
    GenericNamesStatus("403", statusText);
  }

  /** With the status in the message, 429 reaches the temporarily-unavailable text. */
  lemma FixedRateLimitedIsUnavailable(apiKey: string, statusText: string)
    requires IsConfigured(apiKey)
    requires NeutralStatusText(statusText)
    ensures TranscribeAudioFixed(apiKey, SttHttpFailure(429, statusText)) == UnavailableText
  {
    StatusDigits(429);
    GenericLacksKey("429", statusText);
    GenericLacks401("429", statusText);
    RateLimitedGenericLacks403(statusText);
    GenericNamesStatus("429", statusText);
  }

  // ---------------------------------------------------------------------
  // generateSpeech
  // ---------------------------------------------------------------------

  /** How the text-to-speech request ended; `audio` is the response body. */
  datatype TtsCall =
    | TtsNetworkFailure(message: string)
    | TtsHttpFailure(status: nat, statusText: string)
    | TtsAudio(audio: seq<bv8>)

  const TtsErrorPrefix := "ElevenLabs TTS API error: "

  /** generateSpeech: the audio on success; every failure is rethrown, never replaced. */
  function GenerateSpeech(apiKey: string, call: TtsCall): (r: Settled<seq<bv8>>)
    ensures r.Resolved? <==> IsConfigured(apiKey) && call.TtsAudio?
    ensures r.Resolved? ==> r.value == call.audio
    ensures !IsConfigured(apiKey) ==> r == Rejected(MissingKeyError)
    ensures IsConfigured(apiKey) && call.TtsNetworkFailure? ==> r == Rejected(call.message)
  {
    if !IsConfigured(apiKey) then Rejected(MissingKeyError)
    else match call
      case TtsNetworkFailure(m) => Rejected(m)
      case TtsHttpFailure(status, statusText) =>
        Rejected(if status == 401 then InvalidKeyError
                 else if status == 403 then ForbiddenError
                 else if status == 429 then RateLimitError
                 else TtsErrorPrefix + NatToString(status) + " " + statusText)
      case TtsAudio(audio) => Resolved(audio)
  }
}
