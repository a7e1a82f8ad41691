/**
 * The chat-history dialog (`ChatHistoryModal`): the local list of the
 * patient's sessions and the edits made to it alongside the store
 * (create, delete, rename), the last-message preview and the relative
 * date shown for each session.
 */
module ChatHistoryModal {
  import opened Wrappers
  import opened Text
  import opened SupabaseService

  // ---------------------------------------------------------------------
  // Local list edits
  // ---------------------------------------------------------------------

  /** `prev.filter(s => s.id !== id)`. */
  function Without(xs: seq<ChatSession>, id: string): (r: seq<ChatSession>)
    ensures |r| <= |xs|
    ensures forall s :: s in r ==> s in xs && s.id != id
    ensures forall s :: s in xs && s.id != id ==> s in r
    decreases |xs|
  {
    if |xs| == 0 then []
    else if xs[0].id == id then Without(xs[1..], id)
    else [xs[0]] + Without(xs[1..], id)
  }

  /** Filtering out an id the list does not hold leaves the list as it was. */
  lemma {:induction false} WithoutAbsent(xs: seq<ChatSession>, id: string)
    requires forall i :: 0 <= i < |xs| ==> xs[i].id != id
    ensures Without(xs, id) == xs
    decreases |xs|
  {
    if |xs| > 0 {
      WithoutAbsent(xs[1..], id);
      assert xs == [xs[0]] + xs[1..];
    }
  }

  /** Filtering keeps the relative order: it distributes over concatenation. */
  lemma {:induction false} WithoutAppend(xs: seq<ChatSession>, ys: seq<ChatSession>, id: string)
    ensures Without(xs + ys, id) == Without(xs, id) + Without(ys, id)
    decreases |xs|
  {
    if |xs| > 0 {
      assert (xs + ys)[1..] == xs[1..] + ys;
      WithoutAppend(xs[1..], ys, id);
    } else {
      assert xs + ys == ys;
    }
  }

  /** `prev.map(s => s.id === id ? { ...s, session_name: name } : s)`. */
  function Renamed(xs: seq<ChatSession>, id: string, name: string): (r: seq<ChatSession>)
    ensures |r| == |xs|
    ensures forall i :: 0 <= i < |xs| && xs[i].id != id ==> r[i] == xs[i]
    ensures forall i :: 0 <= i < |xs| && xs[i].id == id ==> r[i] == xs[i].(sessionName := name)
    decreases |xs|
  {
    if |xs| == 0 then []
    else
      var head := if xs[0].id == id then xs[0].(sessionName := name) else xs[0];
      [head] + Renamed(xs[1..], id, name)
  }

  // ---------------------------------------------------------------------
  // Preview
  // ---------------------------------------------------------------------

  const NoMessagesText := "No messages yet"
  const PreviewLimit := 50
  const Ellipsis := "..."

  /** The label in front of the preview: 'You: ' for the user, the assistant's name otherwise. */
  function SenderLabel(s: Sender): (r: string)
    ensures r == "You: " <==> s == UserSender
    ensures |r| >= 2 && r[|r| - 2..] == ": "
  {
    if s == UserSender then "You: " else "Dr. Medixa: "
  }

  /**
   * getLastMessagePreview: the sender label and the last message's
   * content, cut to 50 characters and an ellipsis when longer.
   */
  function Preview(session: ChatSession): (r: string)
    ensures |session.messages| == 0 ==> r == NoMessagesText
    ensures |session.messages| > 0 ==>
      var last := session.messages[|session.messages| - 1];
      var tag := SenderLabel(last.sender);
      && StartsWith(r, tag)
      && |r| <= |tag| + PreviewLimit + |Ellipsis|
      && (|last.content| <= PreviewLimit ==> r[|tag|..] == last.content)
      && (|last.content| > PreviewLimit ==>
            |r| == |tag| + PreviewLimit + |Ellipsis|
            && StartsWith(last.content, r[|tag|..|tag| + PreviewLimit])
            && r[|tag| + PreviewLimit..] == Ellipsis)
  {
    if |session.messages| == 0 then NoMessagesText
    else
      var last := session.messages[|session.messages| - 1];
      var shown := if |last.content| > PreviewLimit then last.content[..PreviewLimit] + Ellipsis else last.content;
      SenderLabel(last.sender) + shown
  }

  // ---------------------------------------------------------------------
  // Relative dates
  // ---------------------------------------------------------------------

  const DayMs := 1000 * 60 * 60 * 24

  /** `Math.ceil(diffTime / (1000 * 60 * 60 * 24))` for a non-negative difference in ms. */
  function DiffDays(diffMs: nat): (r: nat)
    ensures r == 0 <==> diffMs == 0
    ensures diffMs <= r * DayMs < diffMs + DayMs
  {
    (diffMs + DayMs - 1) / DayMs
  }

  /** formatDate as written: `localeDate` stands for `toLocaleDateString()`. */
  function FormatDateAsWritten(diffMs: nat, localeDate: string): (r: string)
    ensures 0 < diffMs <= DayMs ==> r == "Today"
    ensures DayMs < diffMs <= 2 * DayMs ==> r == "Yesterday"
    ensures 7 * DayMs < diffMs ==> r == localeDate
  {
    var d := DiffDays(diffMs);
    if d == 1 then "Today"
    else if d == 2 then "Yesterday"
    else if d <= 7 then IntToString(d - 1) + " days ago"
    else localeDate
  }

  /** A session stamped at the current instant is shown as '-1 days ago'. */
  lemma SameInstantShowsMinusOneDays(localeDate: string)
    ensures DiffDays(0) == 0
    ensures FormatDateAsWritten(0, localeDate) == "-1 days ago"
  {
    assert IntToString(-1) == "-1";
  }

  /** formatDate with a zero difference counted as today. */
  function FormatDate(diffMs: nat, localeDate: string): (r: string)
    ensures diffMs > 0 ==> r == FormatDateAsWritten(diffMs, localeDate)
  {
    var d := DiffDays(diffMs);
    if d <= 1 then "Today"
    else if d == 2 then "Yesterday"
    else if d <= 7 then NatToString(d - 1) + " days ago"
    else localeDate
  }

  /** Within the first 24 hours, the zero difference included, the date reads 'Today'. */
  lemma WithinADayIsToday(diffMs: nat, localeDate: string)
    requires diffMs <= DayMs
    ensures FormatDate(diffMs, localeDate) == "Today"
  {
    assert DiffDays(diffMs) <= 1;
  }

  /** The day count shown is between 2 and 6, never negative. */
  lemma DayCountInRange(diffMs: nat, localeDate: string)
    requires DayMs * 2 < diffMs <= DayMs * 7
    ensures 3 <= DiffDays(diffMs) <= 7
    ensures FormatDate(diffMs, localeDate) == NatToString(DiffDays(diffMs) - 1) + " days ago"
  {
    var d := DiffDays(diffMs);
    assert d * DayMs <= diffMs + DayMs - 1 < (d + 1) * DayMs;
    assert 2 < d;
    assert d <= 7;
  }

  // ---------------------------------------------------------------------
  // The dialog
  // ---------------------------------------------------------------------

  class HistoryModal {
    const store: ChatSessionStore
    var sessions: seq<ChatSession>
    var editingSession: Option<string>
    var editName: string
    /** How often `onClose` was called. */
    var closes: nat

    predicate Valid()
      reads this, store
    {
      store.Valid()
    }

    constructor (store: ChatSessionStore)
      requires store.Valid()
      ensures Valid() && this.store == store
      ensures sessions == [] && editingSession.None? && editName == "" && closes == 0
    {
      this.store := store;
      sessions := [];
      editingSession := None;
      editName := "";
      closes := 0;
    }

    /** loadSessions: the list getMySessions returns; a failure keeps the old list. */
    method LoadSessions(fault: Option<string>)
      requires Valid()
      modifies this, store
      ensures Valid() && store.rows == old(store.rows) && closes == old(closes)
      ensures store.profile.Some? && fault.None? ==> IsSessionListOf(store.rows, store.profile.value, sessions)
      ensures store.profile.None? ==> sessions == []
      ensures store.profile.Some? && fault.Some? ==> sessions == old(sessions)
    {
      var r := store.GetMySessions(fault);
      if r.Resolved? {
        sessions := r.value;
      }
    }

    /** Creates a session, puts it first in the list and selects it; a failure changes nothing. */
    method OpenNewSession(newId: string, now: nat, fault: Option<string>)
      returns (selected: Option<string>)
      requires Valid()
      modifies this`sessions, store
      ensures Valid()
      ensures store.profile.Some? && fault.None? && newId !in old(store.rows) ==>
        && selected == Some(newId)
        && sessions == [ChatSession(newId, store.profile.value, DefaultSessionName, [], now, now, now)] + old(sessions)
        && store.rows == old(store.rows)[newId := sessions[0]]
      ensures !(store.profile.Some? && fault.None? && newId !in old(store.rows)) ==>
        selected.None? && sessions == old(sessions) && store.rows == old(store.rows)
    {
      selected := None;
      var created := store.CreateNewSession(newId, now, fault);
      if created.Resolved? {
        sessions := [created.value] + sessions;
        selected := Some(created.value.id);
      }
    }

    /**
     * handleCreateNewSession: the new session goes first and is selected,
     * and the dialog closes; a failure changes nothing and keeps it open.
     */
    method HandleCreateNewSession(newId: string, now: nat, fault: Option<string>)
      returns (selected: Option<string>)
      requires Valid()
      modifies this`sessions, this`closes, store
      ensures Valid()
      ensures store.profile.Some? && fault.None? && newId !in old(store.rows) ==>
        && selected == Some(newId)
        && sessions == [ChatSession(newId, store.profile.value, DefaultSessionName, [], now, now, now)] + old(sessions)
        && store.rows == old(store.rows)[newId := sessions[0]]
        && closes == old(closes) + 1
      ensures !(store.profile.Some? && fault.None? && newId !in old(store.rows)) ==>
        selected.None? && sessions == old(sessions) && store.rows == old(store.rows) && closes == old(closes)
    {
      selected := OpenNewSession(newId, now, fault);
      if selected.Some? {
        closes := closes + 1;
      }
    }

    /**
     * handleDeleteSession: nothing unless confirmed; the session leaves
     * the store and the list, and deleting the current session opens a
     * fresh one in its place.
     */
    method HandleDeleteSession(sessionId: string, confirmed: bool, currentSessionId: Option<string>,
                               deleteFault: Option<string>, newId: string, now: nat, createFault: Option<string>)
      returns (selected: Option<string>)
      requires Valid()
      modifies this`sessions, store
      ensures Valid()
      ensures !confirmed || deleteFault.Some? ==>
        selected.None? && sessions == old(sessions) && store.rows == old(store.rows)
      ensures confirmed && deleteFault.None? && currentSessionId != Some(sessionId) ==>
        selected.None? && sessions == Without(old(sessions), sessionId) && store.rows == old(store.rows) - {sessionId}
      ensures confirmed && deleteFault.None? && currentSessionId == Some(sessionId) ==>
        var cleared := old(store.rows) - {sessionId};
        if store.profile.Some? && createFault.None? && newId !in cleared then
          && selected == Some(newId)
          && sessions == [ChatSession(newId, store.profile.value, DefaultSessionName, [], now, now, now)]
                         + Without(old(sessions), sessionId)
          && store.rows == cleared[newId := sessions[0]]
        else
          selected.None? && sessions == Without(old(sessions), sessionId) && store.rows == cleared
    {
      selected := None;
      if !confirmed {
        return;
      }
      var deleted := store.DeleteSession(sessionId, deleteFault);
      if deleted.Rejected? {
        return;
      }
      sessions := Without(sessions, sessionId);
      if currentSessionId == Some(sessionId) {
        selected := OpenNewSession(newId, now, createFault);
      }
    }

    /** handleEditSessionName: the session being edited and its current name. */
    method HandleEditSessionName(sessionId: string, currentName: string)
      modifies this`editingSession, this`editName
      ensures editingSession == Some(sessionId) && editName == currentName
      ensures sessions == old(sessions)
    {
      editingSession := Some(sessionId);
      editName := currentName;
    }

    method HandleCancelEdit()
      modifies this`editingSession, this`editName
      ensures editingSession.None? && editName == ""
      ensures sessions == old(sessions)
    {
      editingSession := None;
      editName := "";
    }

    /**
     * handleSaveSessionName: a blank name is ignored; otherwise the
     * trimmed name is stored, the matching entry of the list takes it and
     * the edit state is cleared. A failed update changes nothing.
     */
    method HandleSaveSessionName(sessionId: string, now: nat, fault: Option<string>)
      requires Valid()
      modifies this`sessions, this`editingSession, this`editName, store
      ensures Valid()
      ensures Blank(old(editName)) || fault.Some? || sessionId !in old(store.rows) ==>
        sessions == old(sessions) && editingSession == old(editingSession) && editName == old(editName)
        && store.rows == old(store.rows)
      ensures !Blank(old(editName)) && fault.None? && sessionId in old(store.rows) ==>
        var name := Trim(old(editName));
        && sessions == Renamed(old(sessions), sessionId, name)
        && store.rows == old(store.rows)[sessionId := old(store.rows)[sessionId].(
             sessionName := name, lastMessageAt := now, updatedAt := now)]
        && editingSession.None? && editName == ""
        && (forall i :: 0 <= i < |sessions| && sessions[i].id == sessionId ==>
              sessions[i].sessionName == store.rows[sessionId].sessionName)
    {
      if Blank(editName) {
        return;
      }
      var name := Trim(editName);
      var updated := store.UpdateSession(sessionId, SessionUpdate(Some(name), None), now, fault);
      if updated.Rejected? {
        return;
      }
      sessions := Renamed(sessions, sessionId, name);
      editingSession := None;
      editName := "";
    }

    /** Clicking a card selects it and closes the dialog, unless that card is being renamed. */
    method HandleSessionClick(sessionId: string) returns (selected: Option<string>)
      modifies this`closes
      ensures selected == (if editingSession == Some(sessionId) then None else Some(sessionId))
      ensures closes == old(closes) + (if selected.Some? then 1 else 0)
    {
      selected := None;
      if editingSession != Some(sessionId) {
        selected := Some(sessionId);
        closes := closes + 1;
      }
    }
  }
}
