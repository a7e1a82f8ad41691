/**
 * The new-chat launcher (`NewChatInterface`): the typed first message,
 * the quick-start buttons, and the `isStarting` flag and set of
 * processed quick starts that keep a click from starting two chats.
 *
 * The two `setTimeout` resets are modelled as a pending timer that
 * `TimerFires` runs; the delays themselves are not modelled.
 */
module NewChatInterface {
  import opened Wrappers
  import opened Text

  /** The reset a handler has scheduled. */
  datatype Timer = StartReset | QuickStartReset(message: string)

  /** How onStartChat was called: with the message, or with no argument. */
  datatype StartCall = StartWith(message: string) | StartEmpty

  class Launcher {
    var inputText: string
    var isStarting: bool
    var processed: set<string>
    var pending: Option<Timer>

    /**
     * A reset is pending exactly while starting, and the processed set
     * holds exactly the quick start that reset will release.
     */
    predicate Valid()
      reads this
    {
      && (isStarting <==> pending.Some?)
      && processed == (if pending.Some? && pending.value.QuickStartReset? then {pending.value.message} else {})
    }

    constructor ()
      ensures Valid() && inputText == "" && !isStarting && processed == {}
    {
      inputText := "";
      isStarting := false;
      processed := {};
      pending := None;
    }

    /**
     * handleStartChat: ignored while starting; otherwise starts the chat
     * with the trimmed text (clearing the input) or with no message.
     */
    method HandleStartChat() returns (call: Option<StartCall>)
      requires Valid()
      modifies this
      ensures Valid()
      ensures old(isStarting) ==> call.None? && inputText == old(inputText) && pending == old(pending)
      ensures !old(isStarting) && !Blank(old(inputText)) ==>
        call == Some(StartWith(Trim(old(inputText)))) && inputText == "" && pending == Some(StartReset)
      ensures !old(isStarting) && Blank(old(inputText)) ==>
        call == Some(StartEmpty) && inputText == old(inputText) && pending == Some(StartReset)
    {
      if isStarting {
        return None;
      }
      var messageToSend := Trim(inputText);
      isStarting := true;
      if messageToSend != "" {
        call := Some(StartWith(messageToSend));
        inputText := "";
      } else {
        call := Some(StartEmpty);
      }
      pending := Some(StartReset);
    }

    /** handleKeyPress: Enter without Shift starts the chat; any other key does nothing. */
    method HandleKeyPress(key: string, shiftKey: bool) returns (call: Option<StartCall>)
      requires Valid()
      modifies this
      ensures Valid()
      ensures !(key == "Enter" && !shiftKey) ==>
        call.None? && inputText == old(inputText) && isStarting == old(isStarting) && pending == old(pending)
      ensures key == "Enter" && !shiftKey && old(isStarting) ==>
        call.None? && inputText == old(inputText) && pending == old(pending)
      ensures key == "Enter" && !shiftKey && !old(isStarting) && !Blank(old(inputText)) ==>
        call == Some(StartWith(Trim(old(inputText)))) && inputText == "" && isStarting && pending == Some(StartReset)
      ensures key == "Enter" && !shiftKey && !old(isStarting) && Blank(old(inputText)) ==>
        call == Some(StartEmpty) && inputText == old(inputText) && isStarting && pending == Some(StartReset)
    {
      call := None;
      if key == "Enter" && !shiftKey {
        call := HandleStartChat();
      }
    }

    /**
     * handleQuickStart: ignored while starting or when the message is
     * already processed; otherwise the message is recorded and the chat
     * starts with it, once.
     */
    method HandleQuickStart(message: string) returns (call: Option<StartCall>)
      requires Valid()
      modifies this
      ensures Valid()
      ensures old(isStarting) || message in old(processed) ==>
        call.None? && processed == old(processed) && pending == old(pending)
      ensures !old(isStarting) && message !in old(processed) ==>
        call == Some(StartWith(message)) && processed == old(processed) + {message}
        && pending == Some(QuickStartReset(message))
      ensures inputText == old(inputText)
    {
      if isStarting {
        return None;
      }
      if message in processed {
        return None;
      }
      processed := processed + {message};
      isStarting := true;
      call := Some(StartWith(message));
      pending := Some(QuickStartReset(message));
    }

    /** The scheduled reset runs: the quick start is released and starting ends. */
    method TimerFires()
      requires Valid() && pending.Some?
      modifies this
      ensures Valid()
      ensures !isStarting && processed == {} && pending.None?
      ensures old(pending).value.QuickStartReset? ==> processed == old(processed) - {old(pending).value.message}
      ensures inputText == old(inputText)
    {
      var timer := pending.value;
      pending := None;
      isStarting := false;
      if timer.QuickStartReset? {
        processed := processed - {timer.message};
      }
    }
  }
}
