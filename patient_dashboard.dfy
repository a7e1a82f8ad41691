/**
 * The patient dashboard's chat navigation (`PatientDashboard`): which
 * view is shown, whether the new-chat panel or the chat is on screen, the
 * session id and initial message handed to the chat, and the `chatKey`
 * whose every change remounts the chat with fresh state.
 */
module PatientDashboard {
  import opened Wrappers
  import opened Text

  const ChatView := "chat"
  const DefaultTitle := "Dr. Medixa Chat"

  /** The sidebar entries: view id and label. */
  const NavigationItems: seq<(string, string)> := [
    ("chat", "Dr. Medixa Chat"),
    ("consultations", "Consultations"),
    ("images", "Upload Images"),
    ("history", "History"),
    ("appointments", "Appointments"),
    ("emergency", "Emergency")
  ]

  /** `items.find(item => item.id === id)?.label`. */
  function FindLabel(items: seq<(string, string)>, id: string): (r: Option<string>)
    ensures r.None? <==> forall i :: 0 <= i < |items| ==> items[i].0 != id
    ensures r.Some? ==>
      exists i :: (0 <= i < |items| && items[i] == (id, r.value) && forall j :: 0 <= j < i ==> items[j].0 != id)
    decreases |items|
  {
    if |items| == 0 then None
    else if items[0].0 == id then Some(items[0].1)
    else
      var r := FindLabel(items[1..], id);
      if r.Some? then
        ghost var k :| 0 <= k < |items[1..]| && items[1..][k] == (id, r.value)
                       && forall j :: 0 <= j < k ==> items[1..][j].0 != id;
        assert items[k + 1] == (id, r.value);
        r
      else r
  }

  /** No two entries share a view id. */
  predicate DistinctIds(items: seq<(string, string)>)
  {
    forall i, j :: 0 <= i < j < |items| ==> items[i].0 != items[j].0
  }

  /** With distinct ids, looking up an entry's id finds that entry's label. */
  lemma FindLabelOfEntry(items: seq<(string, string)>, i: nat)
    requires DistinctIds(items) && i < |items|
    ensures FindLabel(items, items[i].0) == Some(items[i].1)
  {
    var r := FindLabel(items, items[i].0);
    var k :| 0 <= k < |items| && items[k] == (items[i].0, r.value)
      && forall j :: 0 <= j < k ==> items[j].0 != items[i].0;
    assert k == i;
  }

  /** getCurrentViewTitle: the matching label, else the chat's title. */
  function ViewTitle(currentView: string): (r: string)
    ensures (forall i :: 0 <= i < |NavigationItems| ==> NavigationItems[i].0 != currentView) ==> r == DefaultTitle
    ensures (exists i :: 0 <= i < |NavigationItems| && NavigationItems[i].0 == currentView) ==>
      exists i :: 0 <= i < |NavigationItems| && NavigationItems[i] == (currentView, r)
  {
    var found := FindLabel(NavigationItems, currentView);
    if found.Some? then found.value else DefaultTitle
  }

  /** Every sidebar entry's view is titled with that entry's label. */
  lemma ViewTitleOfEntry(i: nat)
    requires i < |NavigationItems|
    ensures ViewTitle(NavigationItems[i].0) == NavigationItems[i].1
  {
    assert forall k :: 0 <= k < |NavigationItems| ==> |NavigationItems[k].0| == [4, 13, 6, 7, 12, 9][k];
    FindLabelOfEntry(NavigationItems, i);
  }

  /** What the chat area shows. */
  datatype ChatArea =
    | NewChatPanel
    | Chat(key: nat, sessionId: string, initialMessage: string)

  class Dashboard {
    var currentView: string
    var sidebarOpen: bool
    var showNewChat: bool
    var initialMessage: string
    var currentSessionId: string
    var chatKey: nat

    /** The new-chat panel is only ever shown with no session and no pending message. */
    predicate Valid()
      reads this
    {
      showNewChat ==> currentSessionId == "" && initialMessage == ""
    }

    function Area(): ChatArea
      reads this
    {
      if showNewChat then NewChatPanel else Chat(chatKey, currentSessionId, initialMessage)
    }

    constructor ()
      ensures Valid()
      ensures currentView == ChatView && !sidebarOpen && !showNewChat
      ensures initialMessage == "" && currentSessionId == "" && chatKey == 0
    {
      currentView := ChatView;
      sidebarOpen := false;
      showNewChat := false;
      initialMessage := "";
      currentSessionId := "";
      chatKey := 0;
    }

    /** handleStartNewChat: a fresh chat that opens with the message when it is not blank. */
    method HandleStartNewChat(message: Option<string>)
      requires Valid()
      modifies this
      ensures Valid()
      ensures Area() == Chat(old(chatKey) + 1, "",
                             if message.Some? && !Blank(message.value) then message.value else "")
      ensures currentView == old(currentView) && sidebarOpen == old(sidebarOpen)
    {
      currentSessionId := "";
      showNewChat := false;
      if message.Some? && !Blank(message.value) {
        initialMessage := message.value;
      } else {
        initialMessage := "";
      }
      chatKey := chatKey + 1;
    }

    /** handleNewChatClick: clears the session and message and shows the panel. */
    method HandleNewChatClick()
      requires Valid()
      modifies this
      ensures Valid()
      ensures Area() == NewChatPanel
      ensures currentSessionId == "" && initialMessage == "" && chatKey == old(chatKey) + 1
      ensures currentView == old(currentView) && sidebarOpen == old(sidebarOpen)
    {
      currentSessionId := "";
      initialMessage := "";
      showNewChat := true;
      chatKey := chatKey + 1;
    }

    /**
     * handleSessionChange: the chat reports the session it opened. The
     * key stays, so the same chat instance carries on.
     */
    method HandleSessionChange(sessionId: string)
      requires Valid()
      modifies this
      ensures Valid()
      ensures Area() == Chat(old(chatKey), sessionId, old(initialMessage))
      ensures currentView == old(currentView) && sidebarOpen == old(sidebarOpen)
    {
      currentSessionId := sessionId;
      showNewChat := false;
    }

    /** handleSelectSession: a fresh chat on the chosen session, without an initial message. */
    method HandleSelectSession(sessionId: string)
      requires Valid()
      modifies this
      ensures Valid()
      ensures Area() == Chat(old(chatKey) + 1, sessionId, "")
      ensures currentView == old(currentView) && sidebarOpen == old(sidebarOpen)
    {
      currentSessionId := sessionId;
      showNewChat := false;
      initialMessage := "";
      chatKey := chatKey + 1;
    }

    /**
     * handleNavigation: switches the view and closes the sidebar; leaving
     * for any view other than the chat also resets the chat.
     */
    method HandleNavigation(viewId: string)
      requires Valid()
      modifies this
      ensures Valid()
      ensures currentView == viewId && !sidebarOpen
      ensures viewId == ChatView ==>
        showNewChat == old(showNewChat) && initialMessage == old(initialMessage)
        && currentSessionId == old(currentSessionId) && chatKey == old(chatKey)
      ensures viewId != ChatView ==> Area() == Chat(old(chatKey) + 1, "", "")
    {
      currentView := viewId;
      sidebarOpen := false;
      if viewId != ChatView {
        showNewChat := false;
        initialMessage := "";
        currentSessionId := "";
        chatKey := chatKey + 1;
      }
    }
  }
}
