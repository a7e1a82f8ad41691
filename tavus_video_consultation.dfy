/**
 * The video consultation screen (`TavusVideoConsultation`): camera and
 * microphone setup with its error texts, the connection status machine,
 * the mute and camera toggles over the stream's tracks, and the teardown
 * when the consultation ends or the screen goes away.
 *
 * The media stream is an array of tracks; `getUserMedia` is the input
 * `MediaRequest`, the Tavus calls are the functions of `TavusService`.
 */
module TavusVideoConsultation {
  import opened Wrappers
  import opened Text
  import opened TavusService

  datatype TrackKind = AudioTrack | VideoTrack

  /** A media track: `enabled` is its on/off switch, `live` turns false once stopped. */
  datatype Track = Track(kind: TrackKind, enabled: bool, live: bool)

  datatype ConnectionStatus = Idle | Connecting | Connected | ErrorStatus

  /** A value a failed call threw: an `Error` with name and message, or anything else. */
  datatype Thrown = ErrorValue(name: string, message: string) | OtherValue

  /** What asking the browser for camera and microphone gives. */
  datatype MediaRequest =
    | Unsupported               // no navigator.mediaDevices.getUserMedia
    | Granted(tracks: seq<Track>)
    | Refused(thrown: Thrown)

  const DefaultMediaText := "Unable to access camera and microphone."
  const UnsupportedText := "Your browser does not support camera and microphone access. Please use a modern browser like Chrome, Firefox, or Safari."
  const DeniedText := "Camera and microphone access denied. Please allow access in your browser settings and try again."
  const NoDeviceText := "No camera or microphone found. Please connect a camera and microphone and try again."
  const InUseText := "Camera or microphone is already in use by another application. Please close other applications and try again."
  const OverconstrainedText := "Camera or microphone does not meet the required specifications. Please try with different settings."
  const BlockedText := "Camera and microphone access blocked due to security restrictions. Please check your browser settings."

  const ApiKeyStartText := "Tavus API key not configured. Please check your environment variables."
  const PersonaStartText := "Dr. Ava persona not found. Please check your Tavus configuration."
  const DemoModeText := "Tavus API not configured. Using demo mode - video consultation features are limited."
  const ContextNote := "Patient has initiated a video consultation for medical guidance and health assessment."

  /** The `DOMException` names that have a fixed text of their own. */
  predicate KnownMediaError(name: string)
  {
    name in {"NotAllowedError", "NotFoundError", "NotReadableError", "OverconstrainedError", "SecurityError"}
  }

  /**
   * setupUserMedia's catch: known error names get their fixed text, any
   * other `Error` its own message (or the default when that is empty),
   * and a thrown non-`Error` the default.
   */
  function MediaErrorText(thrown: Thrown): (r: string)
    ensures r != ""
    ensures thrown.ErrorValue? && thrown.name == "NotAllowedError" ==> r == DeniedText
    ensures thrown.ErrorValue? && thrown.name == "NotFoundError" ==> r == NoDeviceText
    ensures thrown.ErrorValue? && thrown.name == "NotReadableError" ==> r == InUseText
    ensures thrown.ErrorValue? && thrown.name == "OverconstrainedError" ==> r == OverconstrainedText
    ensures thrown.ErrorValue? && thrown.name == "SecurityError" ==> r == BlockedText
    ensures thrown.ErrorValue? && !KnownMediaError(thrown.name) ==>
      r == (if thrown.message != "" then thrown.message else DefaultMediaText)
    ensures thrown.OtherValue? ==> r == DefaultMediaText
  {
    match thrown
    case OtherValue => DefaultMediaText
    case ErrorValue(name, message) =>
      if name == "NotAllowedError" then DeniedText
      else if name == "NotFoundError" then NoDeviceText
      else if name == "NotReadableError" then InUseText
      else if name == "OverconstrainedError" then OverconstrainedText
      else if name == "SecurityError" then BlockedText
      else if message != "" then message
      else DefaultMediaText
  }

  /** The message setupUserMedia stores and rethrows for a request that fails. */
  function SetupFailure(media: MediaRequest): (r: string)
    requires !media.Granted?
    ensures media.Unsupported? ==> r == UnsupportedText
    ensures media.Refused? ==> r == MediaErrorText(media.thrown)
  {
    match media
    case Unsupported => UnsupportedText
    case Refused(thrown) => MediaErrorText(thrown)
  }

  /** The missing-API error is thrown as a plain `Error` and leaves the catch with its own text. */
  lemma UnsupportedSurvivesCatch()
    ensures MediaErrorText(ErrorValue("Error", UnsupportedText)) == SetupFailure(Unsupported)
  {
  }

  /** A known error name decides the text whatever message came with it. */
  lemma KnownNameIgnoresMessage(name: string, m1: string, m2: string)
    requires KnownMediaError(name)
    ensures MediaErrorText(ErrorValue(name, m1)) == MediaErrorText(ErrorValue(name, m2))
  {
  }

  /**
   * startConsultation's catch: a message naming the API key or the persona
   * is replaced by a configuration hint, the first match winning; any
   * other message is shown as it is.
   */
  function StartErrorText(message: string): (r: string)
    ensures Contains(message, "API key") ==> r == ApiKeyStartText
    ensures !Contains(message, "API key") && Contains(message, "persona") ==> r == PersonaStartText
    ensures !Contains(message, "API key") && !Contains(message, "persona") ==> r == message
    ensures r != message ==> Contains(message, "API key") || Contains(message, "persona")
  {
    if Contains(message, "API key") then ApiKeyStartText
    else if Contains(message, "persona") then PersonaStartText
    else message
  }

  /** The condition that offers opening the conversation in a new window. */
  function OffersExternalLink(url: Option<string>): (r: bool)
    ensures r ==> url.Some? && url.value != ""
    ensures r ==> Contains(url.value, "tavus") || Contains(url.value, "daily.co")
    ensures url.Some? && (Contains(url.value, "tavus") || Contains(url.value, "daily.co")) ==> r
  {
    url.Some? && url.value != "" && (Contains(url.value, "tavus") || Contains(url.value, "daily.co"))
  }

  /**
   * The made-up conversations' page `/mock-tavus-conversation` passes the
   * external-link check, so a 'fallback_' conversation offers a link to a
   * page that does not exist (the buttons also ask for a configured key,
   * which hides it for 'mock_' conversations only).
   */
  lemma SimulatedUrlOffersLink(origin: string, prefix: string, now: nat)
    ensures OffersExternalLink(Simulated(prefix, now, origin).url)
  {
    assert MockPath[6..11] == "tavus";
    ContainsAt(MockPath, "tavus", 6);
    ContainsExtended(origin, MockPath, "", "tavus");
    assert origin + MockPath + "" == origin + MockPath;
  }

  /** A conversation id the screen treats as real: set, non-empty and not made up. */
  predicate IsRealId(id: Option<string>)
  {
    id.Some? && id.value != "" && !IsSimulated(id.value)
  }

  function Switched(t: Track, kind: TrackKind, on: bool): Track
  {
    if t.kind == kind then t.(enabled := on) else t
  }

  /** `getXTracks().forEach(track => track.enabled = on)`. */
  method SetEnabled(tracks: array<Track>, kind: TrackKind, on: bool)
    modifies tracks
    ensures forall i :: 0 <= i < tracks.Length ==> tracks[i] == Switched(old(tracks[i]), kind, on)
  {
    var i := 0;
    while i < tracks.Length
      invariant 0 <= i <= tracks.Length
      invariant forall j :: 0 <= j < i ==> tracks[j] == Switched(old(tracks[j]), kind, on)
      invariant forall j :: i <= j < tracks.Length ==> tracks[j] == old(tracks[j])
    {
      tracks[i] := Switched(tracks[i], kind, on);
      i := i + 1;
    }
  }

  /** `getTracks().forEach(track => track.stop())`. */
  method StopAll(tracks: array<Track>)
    modifies tracks
    ensures forall i :: 0 <= i < tracks.Length ==> tracks[i] == old(tracks[i]).(live := false)
  {
    var i := 0;
    while i < tracks.Length
      invariant 0 <= i <= tracks.Length
      invariant forall j :: 0 <= j < i ==> tracks[j] == old(tracks[j]).(live := false)
      invariant forall j :: i <= j < tracks.Length ==> tracks[j] == old(tracks[j])
    {
      tracks[i] := tracks[i].(live := false);
      i := i + 1;
    }
  }

  class Consultation {
    /** The Tavus key the service was built with. */
    const apiKey: string

    var isConnecting: bool
    var isConnected: bool
    var conversationId: Option<string>
    var error: Option<string>
    var isMuted: bool
    var isVideoEnabled: bool
    var connectionStatus: ConnectionStatus
    var conversationUrl: Option<string>
    var hasUserMedia: bool
    var mediaError: Option<string>
    var isUsingMockMode: bool
    var showExternalLink: bool
    /** `streamRef.current`. */
    var stream: Option<array<Track>>
    /** The three-second "connected" timer is scheduled. */
    var connectTimerPending: bool
    /** Ids handed to `endConversation` and `updateConversationContext`, in order. */
    var endRequests: seq<string>
    var contextRequests: seq<string>
    /** How often `onClose` was called. */
    var closeCount: nat

    ghost function StreamObjects(): set<object>
      reads this
    {
      if stream.Some? then {stream.value} else {}
    }

    ghost predicate Valid()
      reads this
    {
      && (hasUserMedia <==> stream.Some?)
      && (connectionStatus == Connecting ==> isConnecting)
      && (connectionStatus == ErrorStatus ==> error.Some? && !isConnecting)
    }

    constructor(apiKey: string)
      ensures Valid()
      ensures this.apiKey == apiKey
      ensures connectionStatus == Idle && !isConnecting && !isConnected && stream.None?
      ensures conversationId.None? && error.None? && mediaError.None? && !isMuted && isVideoEnabled
      ensures endRequests == [] && contextRequests == [] && closeCount == 0 && !connectTimerPending
    {
      this.apiKey := apiKey;
      isConnecting := false;
      isConnected := false;
      conversationId := None;
      error := None;
      isMuted := false;
      isVideoEnabled := true;
      connectionStatus := Idle;
      conversationUrl := None;
      hasUserMedia := false;
      mediaError := None;
      isUsingMockMode := false;
      showExternalLink := false;
      stream := None;
      connectTimerPending := false;
      endRequests := [];
      contextRequests := [];
      closeCount := 0;
    }

    /**
     * setupUserMedia succeeded: keep the stream, then (nothing can fail
     * afterwards, since createConversation never throws) take the
     * conversation, its link, the context update and the connect timer.
     */
    method Connect(tracks: seq<Track>, now: nat, origin: string, create: Exchange<Conversation>)
      requires isConnecting && connectionStatus == Connecting && error.None? && mediaError.None?
      modifies this`stream, this`hasUserMedia, this`isUsingMockMode, this`error,
        this`conversationId, this`conversationUrl, this`showExternalLink,
        this`contextRequests, this`connectTimerPending
      ensures Valid()
      ensures var c := CreateConversation(apiKey, now, origin, create);
        && connectionStatus == Connecting && isConnecting && connectTimerPending
        && hasUserMedia && stream.Some? && fresh(stream.value) && stream.value[..] == tracks
        && mediaError == None
        && error == (if IsConfigured(apiKey) then None else Some(DemoModeText))
        && isUsingMockMode == (old(isUsingMockMode) || !IsConfigured(apiKey))
        && conversationId == Some(c.id)
        && conversationUrl == (if c.url.Some? && c.url.value != "" then c.url else old(conversationUrl))
        && showExternalLink == (old(showExternalLink) || OffersExternalLink(c.url))
        && contextRequests == old(contextRequests) + (if c.id != "" && IsConfigured(apiKey) then [c.id] else [])
    {
      var a := new Track[|tracks|](i requires 0 <= i < |tracks| => tracks[i]);
      stream := Some(a);
      hasUserMedia := true;
      if !IsConfigured(apiKey) {
        isUsingMockMode := true;
        error := Some(DemoModeText);
      }
      Adopt(CreateConversation(apiKey, now, origin, create));
    }

    /** Take over the conversation createConversation returned and schedule the connect timer. */
    method Adopt(c: Conversation)
      modifies this`conversationId, this`conversationUrl, this`showExternalLink,
        this`contextRequests, this`connectTimerPending
      ensures conversationId == Some(c.id) && connectTimerPending
      ensures conversationUrl == (if c.url.Some? && c.url.value != "" then c.url else old(conversationUrl))
      ensures showExternalLink == (old(showExternalLink) || OffersExternalLink(c.url))
      ensures contextRequests == old(contextRequests) + (if c.id != "" && IsConfigured(apiKey) then [c.id] else [])
    {
      conversationId := Some(c.id);
      if c.url.Some? && c.url.value != "" {
        conversationUrl := c.url;
        if Contains(c.url.value, "tavus") || Contains(c.url.value, "daily.co") {
          showExternalLink := true;
        }
      }
      if c.id != "" && IsConfigured(apiKey) {
        contextRequests := contextRequests + [c.id];
      }
      connectTimerPending := true;
    }

    /** setupUserMedia failed: its text is stored, rethrown and mapped by the catch. */
    method FailSetup(message: string)
      requires hasUserMedia <==> stream.Some?
      modifies this`mediaError, this`error, this`isConnecting, this`connectionStatus
      ensures Valid()
      ensures connectionStatus == ErrorStatus && !isConnecting
      ensures mediaError == Some(message) && error == Some(StartErrorText(message))
    {
      mediaError := Some(message);
      error := Some(StartErrorText(message));
      isConnecting := false;
      connectionStatus := ErrorStatus;
    }

    /** The first updates of startConsultation: connecting, with both error texts cleared. */
    method EnterConnecting()
      modifies this`isConnecting, this`connectionStatus, this`error, this`mediaError
      ensures isConnecting && connectionStatus == Connecting && error.None? && mediaError.None?
    {
      isConnecting := true;
      connectionStatus := Connecting;
      error := None;
      mediaError := None;
    }

    /** startConsultation, up to the re-render, when the camera and microphone were granted. */
    method ConnectGranted(tracks: seq<Track>, now: nat, origin: string, create: Exchange<Conversation>)
      modifies this`isConnecting, this`connectionStatus, this`mediaError,
        this`stream, this`hasUserMedia, this`isUsingMockMode, this`error,
        this`conversationId, this`conversationUrl, this`showExternalLink,
        this`contextRequests, this`connectTimerPending
      ensures Valid()
      ensures var c := CreateConversation(apiKey, now, origin, create);
        && connectionStatus == Connecting && isConnecting && connectTimerPending
        && hasUserMedia && stream.Some? && fresh(stream.value) && stream.value[..] == tracks
        && mediaError == None
        && error == (if IsConfigured(apiKey) then None else Some(DemoModeText))
        && isUsingMockMode == (old(isUsingMockMode) || !IsConfigured(apiKey))
        && conversationId == Some(c.id)
        && conversationUrl == (if c.url.Some? && c.url.value != "" then c.url else old(conversationUrl))
        && showExternalLink == (old(showExternalLink) || OffersExternalLink(c.url))
        && contextRequests == old(contextRequests) + (if c.id != "" && IsConfigured(apiKey) then [c.id] else [])
    {
      EnterConnecting();
      Connect(tracks, now, origin, create);
    }

    /** startConsultation when the media setup failed: only the status fields change. */
    method Refuse(media: MediaRequest)
      requires Valid() && !media.Granted?
      modifies this`isConnecting, this`connectionStatus, this`error, this`mediaError
      ensures Valid()
      ensures connectionStatus == ErrorStatus && !isConnecting
      ensures mediaError == Some(SetupFailure(media))
      ensures error == Some(StartErrorText(SetupFailure(media)))
    {
      EnterConnecting();
      FailSetup(SetupFailure(media));
    }

    /**
     * The cleanup of the effect keyed on `conversationId`, holding the id
     * it captured: stop every track of the current stream (the reference is
     * kept) and end the captured conversation when it is real.
     */
    method EffectCleanup(captured: Option<string>)
      modifies StreamObjects(), this`endRequests
      ensures stream.Some? ==> forall i :: 0 <= i < stream.value.Length ==>
        stream.value[i] == old(stream.value[i]).(live := false)
      ensures endRequests == old(endRequests) + (if IsRealId(captured) then [captured.value] else [])
    {
      if stream.Some? {
        StopAll(stream.value);
      }
      if IsRealId(captured) {
        endRequests := endRequests + [captured.value];
      }
    }

    /**
     * startConsultation as written. Setting the new conversation id
     * re-runs the effect keyed on it, whose cleanup from the previous
     * render stops every track of the stream just obtained: after a
     * granted start the camera and microphone are already stopped.
     */
    method StartConsultation(media: MediaRequest, now: nat, origin: string, create: Exchange<Conversation>)
      requires Valid() && !isConnected && !isConnecting
      modifies this
      ensures Valid()
      ensures media.Granted? ==> connectionStatus == Connecting && stream.Some? && fresh(stream.value)
      ensures media.Granted? && conversationId != old(conversationId) ==>
        forall i :: 0 <= i < stream.value.Length ==> !stream.value[i].live
      ensures !media.Granted? ==>
        && connectionStatus == ErrorStatus && !isConnecting
        && mediaError == Some(SetupFailure(media)) && error == Some(StartErrorText(SetupFailure(media)))
        && stream == old(stream) && conversationId == old(conversationId)
    {
      var previous := conversationId;
      if media.Granted? {
        ConnectGranted(media.tracks, now, origin, create);
      } else {
        Refuse(media);
      }
      if conversationId != previous {
        EffectCleanup(previous);
      }
    }

    /**
     * startConsultation with the cleanup kept for unmounting only: the
     * tracks the browser granted stay as they were.
     */
    method StartConsultationFixed(media: MediaRequest, now: nat, origin: string, create: Exchange<Conversation>)
      requires Valid() && !isConnected && !isConnecting
      modifies this
      ensures Valid()
      ensures media.Granted? ==> var c := CreateConversation(apiKey, now, origin, create);
        && connectionStatus == Connecting && isConnecting && connectTimerPending
        && hasUserMedia && stream.Some? && fresh(stream.value) && stream.value[..] == media.tracks
        && mediaError == None
        && error == (if IsConfigured(apiKey) then None else Some(DemoModeText))
        && isUsingMockMode == (old(isUsingMockMode) || !IsConfigured(apiKey))
        && conversationId == Some(c.id)
        && conversationUrl == (if c.url.Some? && c.url.value != "" then c.url else old(conversationUrl))
        && showExternalLink == (old(showExternalLink) || OffersExternalLink(c.url))
        && contextRequests == old(contextRequests) + (if c.id != "" && IsConfigured(apiKey) then [c.id] else [])
      ensures !media.Granted? ==>
        && connectionStatus == ErrorStatus && !isConnecting
        && mediaError == Some(SetupFailure(media)) && error == Some(StartErrorText(SetupFailure(media)))
        && stream == old(stream) && conversationId == old(conversationId)
        && endRequests == old(endRequests) && contextRequests == old(contextRequests)
    {
      if media.Granted? {
        ConnectGranted(media.tracks, now, origin, create);
      } else {
        Refuse(media);
      }
    }

    /** The three-second timer: the connection counts as established. */
    method ConnectTimerFires()
      requires Valid() && connectTimerPending
      modifies this
      ensures Valid()
      ensures !isConnecting && isConnected && connectionStatus == Connected && !connectTimerPending
      ensures stream == old(stream) && conversationId == old(conversationId) && error == old(error)
    {
      isConnecting := false;
      isConnected := true;
      connectionStatus := Connected;
      connectTimerPending := false;
    }

    /** toggleMute: every audio track ends enabled iff the call is not muted. */
    method ToggleMute()
      requires Valid()
      modifies this, StreamObjects()
      ensures Valid()
      ensures stream == old(stream) && isVideoEnabled == old(isVideoEnabled)
      ensures stream.None? ==> isMuted == old(isMuted)
      ensures stream.Some? ==>
        && isMuted == !old(isMuted)
        && (forall i :: 0 <= i < stream.value.Length ==>
              stream.value[i] == Switched(old(stream.value[i]), AudioTrack, !isMuted))
        && (forall i :: 0 <= i < stream.value.Length && stream.value[i].kind == AudioTrack ==>
              stream.value[i].enabled == !isMuted)
    {
      if stream.Some? {
        SetEnabled(stream.value, AudioTrack, isMuted);
        isMuted := !isMuted;
      }
    }

    /** toggleVideo: every video track ends enabled iff video is on. */
    method ToggleVideo()
      requires Valid()
      modifies this, StreamObjects()
      ensures Valid()
      ensures stream == old(stream) && isMuted == old(isMuted)
      ensures stream.None? ==> isVideoEnabled == old(isVideoEnabled)
      ensures stream.Some? ==>
        && isVideoEnabled == !old(isVideoEnabled)
        && (forall i :: 0 <= i < stream.value.Length ==>
              stream.value[i] == Switched(old(stream.value[i]), VideoTrack, isVideoEnabled))
        && (forall i :: 0 <= i < stream.value.Length && stream.value[i].kind == VideoTrack ==>
              stream.value[i].enabled == isVideoEnabled)
    {
      if stream.Some? {
        SetEnabled(stream.value, VideoTrack, !isVideoEnabled);
        isVideoEnabled := !isVideoEnabled;
      }
    }

    /**
     * endConsultation: end a real conversation, stop and drop the stream,
     * go back to idle and close the screen. The conversation id, the error
     * text and a pending connect timer are left as they are.
     */
    method EndConsultation()
      requires Valid()
      modifies this, StreamObjects()
      ensures Valid()
      ensures endRequests == old(endRequests) + (if IsRealId(conversationId) then [conversationId.value] else [])
      ensures old(stream).Some? ==> forall i :: 0 <= i < old(stream).value.Length ==>
        old(stream).value[i] == old(stream.value[i]).(live := false)
      ensures stream.None? && !hasUserMedia && mediaError.None?
      ensures !isConnected && connectionStatus == Idle && closeCount == old(closeCount) + 1
      ensures conversationId == old(conversationId) && error == old(error)
      ensures connectTimerPending == old(connectTimerPending) && isConnecting == old(isConnecting)
    {
      if IsRealId(conversationId) {
        endRequests := endRequests + [conversationId.value];
      }
      if stream.Some? {
        StopAll(stream.value);
        stream := None;
      }
      isConnected := false;
      connectionStatus := Idle;
      hasUserMedia := false;
      mediaError := None;
      closeCount := closeCount + 1;
    }

    /**
     * Unmounting runs the effect's cleanup with the current id. Since
     * endConsultation keeps the id and `onClose` unmounts the screen, a
     * real conversation is handed to endConversation twice.
     */
    method Unmount()
      modifies StreamObjects(), this`endRequests
      ensures stream.Some? ==> forall i :: 0 <= i < stream.value.Length ==> !stream.value[i].live
      ensures endRequests == old(endRequests) + (if IsRealId(conversationId) then [conversationId.value] else [])
    {
      EffectCleanup(conversationId);
    }
  }

  /** Ending and then unmounting asks Tavus to end a real conversation twice. */
  method EndThenUnmount(screen: Consultation)
    requires screen.Valid() && IsRealId(screen.conversationId)
    modifies screen, screen.StreamObjects()
    ensures screen.endRequests == old(screen.endRequests) + [old(screen.conversationId).value, old(screen.conversationId).value]
    ensures screen.stream.None?
  {
    screen.EndConsultation();
    screen.Unmount();
  }
}
