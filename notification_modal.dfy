/**
 * The doctor's notification dialog: the unread/read split, the accept and
 * decline actions on patient requests with the set of requests in
 * flight, and the relative dates.
 */
module NotificationModal {
  import opened Wrappers
  import opened Text
  import opened SupabaseService
  import opened DoctorDashboard

  const DoctorRequestKind := "doctor_request"
  const ReadListLimit := 10
  const AcceptFailedText := "Failed to accept patient request. Please try again."
  const RejectFailedText := "Failed to reject patient request. Please try again."

  // ---------------------------------------------------------------------
  // The two lists
  // ---------------------------------------------------------------------

  function Unread(ns: seq<Notification>): (r: seq<Notification>)
    ensures forall n :: n in r <==> n in ns && !n.read
    decreases |ns|
  {
    if |ns| == 0 then []
    else
      assert forall n :: n in ns <==> n == ns[0] || n in ns[1..];
      (if ns[0].read then [] else [ns[0]]) + Unread(ns[1..])
  }

  function ReadOnes(ns: seq<Notification>): (r: seq<Notification>)
    ensures forall n :: n in r <==> n in ns && n.read
    decreases |ns|
  {
    if |ns| == 0 then []
    else
      assert forall n :: n in ns <==> n == ns[0] || n in ns[1..];
      (if ns[0].read then [ns[0]] else []) + ReadOnes(ns[1..])
  }

  /** The unread list keeps the notifications' order: it is taken entry by entry, so it distributes over `+`. */
  lemma {:induction false} UnreadAppend(a: seq<Notification>, b: seq<Notification>)
    ensures Unread(a + b) == Unread(a) + Unread(b)
    decreases |a|
  {
    if |a| > 0 {
      assert (a + b)[1..] == a[1..] + b;
      UnreadAppend(a[1..], b);
    } else {
      assert a + b == b;
    }
  }

  /** The read list keeps the notifications' order in the same way. */
  lemma {:induction false} ReadOnesAppend(a: seq<Notification>, b: seq<Notification>)
    ensures ReadOnes(a + b) == ReadOnes(a) + ReadOnes(b)
    decreases |a|
  {
    if |a| > 0 {
      assert (a + b)[1..] == a[1..] + b;
      ReadOnesAppend(a[1..], b);
    } else {
      assert a + b == b;
    }
  }

  /** The two lists split the notifications: together they hold each one exactly once. */
  lemma {:induction false} ListsPartition(ns: seq<Notification>)
    ensures multiset(Unread(ns)) + multiset(ReadOnes(ns)) == multiset(ns)
    decreases |ns|
  {
    if |ns| > 0 {
      ListsPartition(ns[1..]);
      PartitionStep(ns);
    }
  }

  lemma PartitionStep(ns: seq<Notification>)
    requires |ns| > 0
    requires multiset(Unread(ns[1..])) + multiset(ReadOnes(ns[1..])) == multiset(ns[1..])
    ensures multiset(Unread(ns)) + multiset(ReadOnes(ns)) == multiset(ns)
  {
    var rest := ns[1..];
    assert ns == [ns[0]] + rest;
    if ns[0].read {
      assert Unread(ns) == Unread(rest) && ReadOnes(ns) == [ns[0]] + ReadOnes(rest);
    } else {
      assert Unread(ns) == [ns[0]] + Unread(rest) && ReadOnes(ns) == ReadOnes(rest);
    }
    ConsKeepsSplit(ns[0], Unread(rest), ReadOnes(rest), rest);
  }

  /** Putting one more element at the front of either part keeps a split of the longer list. */
  lemma ConsKeepsSplit<T>(x: T, u: seq<T>, r: seq<T>, rest: seq<T>)
    requires multiset(u) + multiset(r) == multiset(rest)
    ensures multiset([x] + u) + multiset(r) == multiset([x] + rest)
    ensures multiset(u) + multiset([x] + r) == multiset([x] + rest)
  {
  }

  /** The unread list is as long as the dashboard's unread count. */
  lemma {:induction false} UnreadListMatchesCount(ns: seq<Notification>)
    ensures |Unread(ns)| == UnreadCount(ns)
    decreases |ns|
  {
    if |ns| > 0 {
      UnreadListMatchesCount(ns[1..]);
    }
  }

  /** The read list shows at most ten entries, the first ten read ones. */
  function ShownRead(ns: seq<Notification>): (r: seq<Notification>)
    ensures |r| <= ReadListLimit && r <= ReadOnes(ns)
    ensures |ReadOnes(ns)| <= ReadListLimit ==> r == ReadOnes(ns)
    ensures |ReadOnes(ns)| > ReadListLimit ==> r == ReadOnes(ns)[..ReadListLimit]
  {
    var all := ReadOnes(ns);
    if |all| <= ReadListLimit then all else all[..ReadListLimit]
  }

  /** Accept and Decline appear on unread patient requests that carry a request id. */
  function ShowsActions(n: Notification): (r: bool)
    ensures r ==> n.requestId.Some? && n.requestId.value != "" && !ClickMarksRead(n)
    ensures n.read || n.kind != DoctorRequestKind ==> !r
    ensures n.kind == DoctorRequestKind && n.requestId.Some? && n.requestId.value != "" && !n.read ==> r
  {
    n.kind == DoctorRequestKind && n.requestId.Some? && n.requestId.value != "" && !n.read
  }

  /**
   * Accept and Decline are enabled on a card that offers them unless its
   * request is already being processed.
   */
  predicate ActionsEnabled(processing: set<string>, n: Notification)
  {
    ShowsActions(n) && n.requestId.value !in processing
  }

  /** Clicking a card marks it read only for unread cards that are not patient requests. */
  predicate ClickMarksRead(n: Notification)
  {
    !n.read && n.kind != DoctorRequestKind
  }

  /** No card both offers the actions and is marked read by a click. */
  lemma ActionCardsNeedAnAction(n: Notification)
    ensures ShowsActions(n) ==> !ClickMarksRead(n)
  {
  }

  // ---------------------------------------------------------------------
  // Dates
  // ---------------------------------------------------------------------

  const DayMs := 1000 * 60 * 60 * 24

  function DiffDays(diffMs: nat): (r: nat)
    ensures r == 0 <==> diffMs == 0
    ensures diffMs <= r * DayMs < diffMs + DayMs
  {
    (diffMs + DayMs - 1) / DayMs
  }

  /**
   * formatDate as written: `time` stands for `toLocaleTimeString` and
   * `localeDate` for `toLocaleDateString`.
   */
  function FormatDateAsWritten(diffMs: nat, time: string, localeDate: string): (r: string)
    ensures 0 < diffMs <= DayMs ==> r == "Today at " + time
    ensures DayMs < diffMs <= 2 * DayMs ==> r == "Yesterday at " + time
    ensures 7 * DayMs < diffMs ==> r == localeDate
  {
    var d := DiffDays(diffMs);
    if d == 1 then "Today at " + time
    else if d == 2 then "Yesterday at " + time
    else if d <= 7 then IntToString(d - 1) + " days ago"
    else localeDate
  }

  /** A notification created at the current instant reads '-1 days ago'. */
  lemma SameInstantShowsMinusOneDays(time: string, localeDate: string)
    ensures FormatDateAsWritten(0, time, localeDate) == "-1 days ago"
  {
    assert DiffDays(0) == 0;
    assert IntToString(-1) == "-1";
  }

  /** formatDate with a zero difference counted as today. */
  function FormatDate(diffMs: nat, time: string, localeDate: string): (r: string)
    ensures diffMs > 0 ==> r == FormatDateAsWritten(diffMs, time, localeDate)
  {
    var d := DiffDays(diffMs);
    if d <= 1 then "Today at " + time
    else if d == 2 then "Yesterday at " + time
    else if d <= 7 then NatToString(d - 1) + " days ago"
    else localeDate
  }

  /** Within the first 24 hours, the zero difference included, the date reads 'Today at'. */
  lemma WithinADayIsToday(diffMs: nat, time: string, localeDate: string)
    requires diffMs <= DayMs
    ensures FormatDate(diffMs, time, localeDate) == "Today at " + time
  {
    assert DiffDays(diffMs) <= 1;
  }

  // ---------------------------------------------------------------------
  // The dialog
  // ---------------------------------------------------------------------

  class NotificationPanel {
    const requests: RequestStore
    /** `processingRequests`. */
    var processing: set<string>
    /** The ids handed to `onMarkAsRead`, in order. */
    var markedRead: seq<string>
    /** How often `onPatientAccepted` was called. */
    var refreshes: nat
    var alerts: seq<string>

    constructor(requests: RequestStore)
      ensures this.requests == requests
      ensures processing == {} && markedRead == [] && refreshes == 0 && alerts == []
    {
      this.requests := requests;
      processing := {};
      markedRead := [];
      refreshes := 0;
      alerts := [];
    }

    /** The start of handleAcceptPatient: without a request id nothing happens. */
    method StartAccept(n: Notification) returns (requestId: Option<string>)
      modifies this`processing
      ensures requestId.Some? <==> n.requestId.Some? && n.requestId.value != ""
      ensures requestId.Some? ==> requestId == n.requestId && processing == old(processing) + {requestId.value}
      ensures requestId.None? ==> processing == old(processing)
      ensures ActionsEnabled(old(processing), n) ==> requestId.Some?
      ensures requestId.Some? ==> !ActionsEnabled(processing, n)
    {
      if n.requestId.None? || n.requestId.value == "" {
        return None;
      }
      requestId := n.requestId;
      processing := processing + {requestId.value};
    }

    /**
     * The rest of handleAcceptPatient: approve; on success mark the
     * notification read and ask for a refresh, on failure alert; in every
     * case the request leaves the processing set.
     */
    method FinishAccept(n: Notification, requestId: string, hasRefresh: bool, now: nat,
                        updateFault: Option<string>, readBackFails: bool, insertFails: bool)
      requires requestId in processing
      modifies this`processing, this`markedRead, this`refreshes, this`alerts, requests
      ensures processing == old(processing) - {requestId}
      ensures requests.authCallbacks
                == old(requests.authCallbacks) + (if updateFault.Some? then CallbackCount(updateFault.value) else 0)
      ensures updateFault.None? ==>
        && markedRead == old(markedRead) + [n.id] && alerts == old(alerts)
        && refreshes == old(refreshes) + (if hasRefresh then 1 else 0)
        && requests.requests == (if requestId in old(requests.requests)
             then old(requests.requests)[requestId := old(requests.requests)[requestId].(
                    status := "approved", respondedAt := Some(now))]
             else old(requests.requests))
      ensures updateFault.None? ==>
        requests.relationships ==
          (if requestId in old(requests.requests) && !readBackFails && !insertFails
           then old(requests.relationships)
                + [Relationship(old(requests.requests)[requestId].patientId, old(requests.requests)[requestId].doctorId)]
           else old(requests.relationships))
      ensures updateFault.Some? ==>
        && markedRead == old(markedRead) && refreshes == old(refreshes)
        && alerts == old(alerts) + [AcceptFailedText]
        && requests.requests == old(requests.requests)
        && requests.relationships == old(requests.relationships)
    {
      var r := requests.UpdateRequestStatus(requestId, Approve, now, updateFault, readBackFails, insertFails);
      if r.Resolved? {
        markedRead := markedRead + [n.id];
        if hasRefresh {
          refreshes := refreshes + 1;
        }
      } else {
        alerts := alerts + [AcceptFailedText];
      }
      processing := processing - {requestId};
    }

    /**
     * The start of handleRejectPatient: nothing happens without a request
     * id, nor when the reason prompt is cancelled (`reason` is None).
     */
    method StartReject(n: Notification, reason: Option<string>) returns (requestId: Option<string>)
      modifies this`processing
      ensures requestId.Some? <==> n.requestId.Some? && n.requestId.value != "" && reason.Some?
      ensures requestId.Some? ==> requestId == n.requestId && processing == old(processing) + {requestId.value}
      ensures requestId.None? ==> processing == old(processing)
      ensures ActionsEnabled(old(processing), n) && reason.Some? ==> requestId.Some?
      ensures requestId.Some? ==> !ActionsEnabled(processing, n)
    {
      if n.requestId.None? || n.requestId.value == "" || reason.None? {
        return None;
      }
      requestId := n.requestId;
      processing := processing + {requestId.value};
    }

    /** The rest of handleRejectPatient: as accepting, without the refresh. */
    method FinishReject(n: Notification, requestId: string, now: nat, updateFault: Option<string>)
      requires requestId in processing
      modifies this`processing, this`markedRead, this`alerts, requests
      ensures processing == old(processing) - {requestId}
      ensures requests.authCallbacks
                == old(requests.authCallbacks) + (if updateFault.Some? then CallbackCount(updateFault.value) else 0)
      ensures updateFault.None? ==>
        && markedRead == old(markedRead) + [n.id] && alerts == old(alerts)
        && requests.relationships == old(requests.relationships)
        && requests.requests == (if requestId in old(requests.requests)
             then old(requests.requests)[requestId := old(requests.requests)[requestId].(
                    status := "rejected", respondedAt := Some(now))]
             else old(requests.requests))
      ensures updateFault.Some? ==>
        && markedRead == old(markedRead) && alerts == old(alerts) + [RejectFailedText]
        && requests.requests == old(requests.requests)
        && requests.relationships == old(requests.relationships)
    {
      var r := requests.UpdateRequestStatus(requestId, Reject, now, updateFault, false, false);
      if r.Resolved? {
        markedRead := markedRead + [n.id];
      } else {
        alerts := alerts + [RejectFailedText];
      }
      processing := processing - {requestId};
    }

    /** Clicking a card in the unread list. */
    method ClickCard(n: Notification)
      modifies this`markedRead
      ensures markedRead == old(markedRead) + (if ClickMarksRead(n) then [n.id] else [])
    {
      if ClickMarksRead(n) {
        markedRead := markedRead + [n.id];
      }
    }
  }

  /**
   * An accepted request stays in the processing set, with both buttons
   * disabled, while the approval is under way; afterwards the set is as
   * before and the buttons of a card still showing them are enabled again,
   * whatever the server answers.
   */
  method AcceptRoundTrip(panel: NotificationPanel, n: Notification, now: nat, updateFault: Option<string>)
    returns (wasProcessing: bool, disabledMeanwhile: bool)
    requires n.requestId.Some? && n.requestId.value != "" && n.requestId.value !in panel.processing
    modifies panel, panel.requests
    ensures wasProcessing && disabledMeanwhile
    ensures panel.processing == old(panel.processing)
    ensures ShowsActions(n) ==> ActionsEnabled(panel.processing, n)
  {
    var id := panel.StartAccept(n);
    wasProcessing := id.value in panel.processing;
    disabledMeanwhile := !ActionsEnabled(panel.processing, n);
    panel.FinishAccept(n, id.value, true, now, updateFault, false, false);
  }

  /** Declining, as accepting: disabled while the rejection is under way, enabled again afterwards. */
  method RejectRoundTrip(panel: NotificationPanel, n: Notification, reason: string, now: nat,
                         updateFault: Option<string>)
    returns (wasProcessing: bool, disabledMeanwhile: bool)
    requires n.requestId.Some? && n.requestId.value != "" && n.requestId.value !in panel.processing
    modifies panel, panel.requests
    ensures wasProcessing && disabledMeanwhile
    ensures panel.processing == old(panel.processing)
    ensures ShowsActions(n) ==> ActionsEnabled(panel.processing, n)
  {
    var id := panel.StartReject(n, Some(reason));
    wasProcessing := id.value in panel.processing;
    disabledMeanwhile := !ActionsEnabled(panel.processing, n);
    panel.FinishReject(n, id.value, now, updateFault);
  }
}
