/**
 * The Tavus video-avatar client (`tavusService`): configuration checks,
 * and the conversation calls that fall back to simulated conversations
 * ('mock_' and 'fallback_' ids) instead of failing.
 *
 * Each HTTP exchange is an oracle `Exchange<T>`; `Date.now()` and
 * `window.location.origin` are parameters.
 */
module TavusService {
  import opened Wrappers
  import opened Text

  const PlaceholderKey := "your_tavus_api_key_here"
  const PersonaId := "p9863a04af01"
  const MockPrefix := "mock_"
  const FallbackPrefix := "fallback_"
  const ActiveStatus := "active"
  const MockPath := "/mock-tavus-conversation"

  /** How a request to the Tavus API ended. */
  datatype Exchange<T> =
    | NetworkError(message: string)   // fetch rejected or was aborted
    | HttpError(status: nat)          // !response.ok
    | BadBody                         // the body was not parseable JSON
    | Delivered(body: T)

  datatype Conversation = Conversation(id: string, status: string, url: Option<string>)

  /** isConfigured: a key that is neither empty nor the placeholder. */
  function IsConfigured(apiKey: string): (r: bool)
    ensures apiKey == PlaceholderKey ==> !r
    ensures r <==> |apiKey| > 0 && apiKey != PlaceholderKey
  {
    apiKey != "" && apiKey != PlaceholderKey
  }

  const NoKeyStatus := "No API key " + "found in environment variables"
  const PlaceholderStatus := "Placeholder API key " + "detected - please update with real key"
  const ConfiguredStatusPrefix := "API key configured " + "- using persona "

  /** getConfigurationStatus: which of the three key situations holds. */
  function ConfigurationStatus(apiKey: string): (r: string)
    ensures apiKey == "" <==> r == NoKeyStatus
    ensures apiKey == PlaceholderKey <==> r == PlaceholderStatus
    ensures IsConfigured(apiKey) <==> r == ConfiguredStatusPrefix + PersonaId
  {
    assert NoKeyStatus[0] == 'N' && PlaceholderStatus[0] == 'P' && (ConfiguredStatusPrefix + PersonaId)[0] == 'A';
    if apiKey == "" then NoKeyStatus
    else if apiKey == PlaceholderKey then PlaceholderStatus
    else ConfiguredStatusPrefix + PersonaId
  }

  /** A conversation made up locally: its id starts with 'mock_' or 'fallback_'. */
  function IsSimulated(conversationId: string): (r: bool)
    ensures StartsWith(conversationId, MockPrefix) ==> r
    ensures StartsWith(conversationId, FallbackPrefix) ==> r
    ensures r ==> conversationId != ""
  {
    StartsWith(conversationId, MockPrefix) || StartsWith(conversationId, FallbackPrefix)
  }

  /** The guard shared by the calls on an existing conversation. */
  predicate SkipsNetwork(apiKey: string, conversationId: string)
  {
    !IsConfigured(apiKey) || IsSimulated(conversationId)
  }

  function Simulated(prefix: string, now: nat, origin: string): Conversation
  {
    Conversation(prefix + NatToString(now), ActiveStatus, Some(origin + MockPath))
  }

  /**
   * createConversation never throws: without a usable key it returns a
   * 'mock_' conversation, after any failure a 'fallback_' one, and
   * otherwise the conversation the API created.
   */
  function CreateConversation(apiKey: string, now: nat, origin: string, call: Exchange<Conversation>)
    : (r: Conversation)
    ensures !IsConfigured(apiKey) ==> r == Simulated(MockPrefix, now, origin) && StartsWith(r.id, MockPrefix)
    ensures IsConfigured(apiKey) && !call.Delivered? ==>
      r == Simulated(FallbackPrefix, now, origin) && StartsWith(r.id, FallbackPrefix)
    ensures IsConfigured(apiKey) && call.Delivered? ==> r == call.body
    ensures !(IsConfigured(apiKey) && call.Delivered?) ==> IsSimulated(r.id) && r.status == ActiveStatus
  {
    if !IsConfigured(apiKey) then Simulated(MockPrefix, now, origin)
    else match call
      case Delivered(conversation) => conversation
      case _ => Simulated(FallbackPrefix, now, origin)
  }

  /**
   * updateConversationContext: `(result, requested)`. Simulated
   * conversations and an unusable key report success without a request;
   * a non-OK response or any exception reports failure; nothing throws.
   */
  function UpdateConversationContext(apiKey: string, conversationId: string, call: Exchange<()>)
    : (r: (bool, bool))
    ensures SkipsNetwork(apiKey, conversationId) ==> r == (true, false)
    ensures !SkipsNetwork(apiKey, conversationId) ==> r.1 && (r.0 <==> !call.NetworkError? && !call.HttpError?)
  {
    if SkipsNetwork(apiKey, conversationId) then (true, false)
    else match call
      case NetworkError(_) => (false, true)
      case HttpError(_) => (false, true)
      case _ => (true, true)
  }

  /** sendMessage: whether a request goes out; failures are swallowed. */
  function SendMessage(apiKey: string, conversationId: string, message: string): (requested: bool)
    ensures requested <==> !SkipsNetwork(apiKey, conversationId)
  {
    !SkipsNetwork(apiKey, conversationId)
  }

  /** endConversation: whether a DELETE goes out; failures are swallowed. */
  function EndConversation(apiKey: string, conversationId: string): (requested: bool)
    ensures requested <==> !SkipsNetwork(apiKey, conversationId)
  {
    !SkipsNetwork(apiKey, conversationId)
  }

  /**
   * getConversationStatus: 'active' for simulated conversations, 'error'
   * after a failure, else the reported status or 'unknown' when it is
   * missing or empty.
   */
  function ConversationStatus(apiKey: string, conversationId: string, call: Exchange<Option<string>>)
    : (r: string)
    ensures SkipsNetwork(apiKey, conversationId) ==> r == ActiveStatus
    ensures !SkipsNetwork(apiKey, conversationId) && !call.Delivered? ==> r == "error"
    ensures !SkipsNetwork(apiKey, conversationId) && call.Delivered? ==>
      r == (if call.body.Some? && call.body.value != "" then call.body.value else "unknown")
    ensures r != ""
  {
    if SkipsNetwork(apiKey, conversationId) then ActiveStatus
    else match call
      case Delivered(status) => if status.Some? && status.value != "" then status.value else "unknown"
      case _ => "error"
  }

  /**
   * A conversation that createConversation made up never reaches the
   * network afterwards: every later call on it is skipped and reports
   * success or 'active'.
   */
  lemma SimulatedConversationStaysLocal(apiKey: string, now: nat, origin: string,
                                        create: Exchange<Conversation>, context: Exchange<()>,
                                        status: Exchange<Option<string>>, message: string)
    requires !(IsConfigured(apiKey) && create.Delivered?)
    ensures var c := CreateConversation(apiKey, now, origin, create);
      && UpdateConversationContext(apiKey, c.id, context) == (true, false)
      && !SendMessage(apiKey, c.id, message)
      && !EndConversation(apiKey, c.id)
      && ConversationStatus(apiKey, c.id, status) == ActiveStatus
  {
    var c := CreateConversation(apiKey, now, origin, create);
    assert IsSimulated(c.id);
  }

  /** With a usable key, a real conversation id goes to the network for every call. */
  lemma RealConversationIsContacted(apiKey: string, conversationId: string, message: string)
    requires IsConfigured(apiKey) && !IsSimulated(conversationId)
    ensures SendMessage(apiKey, conversationId, message) && EndConversation(apiKey, conversationId)
    ensures UpdateConversationContext(apiKey, conversationId, Delivered(())) == (true, true)
    ensures UpdateConversationContext(apiKey, conversationId, HttpError(404)) == (false, true)
  {
  }
}
