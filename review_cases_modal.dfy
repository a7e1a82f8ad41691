/**
 * The doctor's case review dialog: the status and priority filters over
 * the pending cases, the three views, and the approve / request
 * information / escalate flow with its delayed reset.
 */
module ReviewCasesModal {
  import opened Wrappers
  import opened Text

  datatype PendingCase = PendingCase(id: string, patientName: string, status: string, priority: string)

  datatype Action = ApproveAction | RequestInfoAction | EscalateAction

  datatype View = ActionView | DetailsView | ListView

  /** A case passes when each filter is 'All' or equal to the case's value. */
  function Passes(c: PendingCase, statusFilter: string, priorityFilter: string): (r: bool)
    ensures statusFilter == "All" && priorityFilter == "All" ==> r
    ensures r && statusFilter != "All" ==> c.status == statusFilter
    ensures r && priorityFilter != "All" ==> c.priority == priorityFilter
  {
    (statusFilter == "All" || c.status == statusFilter) && (priorityFilter == "All" || c.priority == priorityFilter)
  }

  /** filteredCases: the passing cases, in their original order. */
  function FilteredCases(cases: seq<PendingCase>, statusFilter: string, priorityFilter: string)
    : (r: seq<PendingCase>)
    ensures |r| <= |cases|
    ensures forall c :: c in r <==> c in cases && Passes(c, statusFilter, priorityFilter)
    decreases |cases|
  {
    if |cases| == 0 then []
    else
      assert forall c :: c in cases <==> c == cases[0] || c in cases[1..];
      var rest := FilteredCases(cases[1..], statusFilter, priorityFilter);
      if Passes(cases[0], statusFilter, priorityFilter) then [cases[0]] + rest else rest
  }

  /** The filter keeps the cases' order: it is taken case by case, so it distributes over `+`. */
  lemma {:induction false} FilteredCasesAppend(a: seq<PendingCase>, b: seq<PendingCase>, statusFilter: string, priorityFilter: string)
    ensures FilteredCases(a + b, statusFilter, priorityFilter)
         == FilteredCases(a, statusFilter, priorityFilter) + FilteredCases(b, statusFilter, priorityFilter)
    decreases |a|
  {
    if |a| > 0 {
      assert (a + b)[1..] == a[1..] + b;
      FilteredCasesAppend(a[1..], b, statusFilter, priorityFilter);
    } else {
      assert a + b == b;
    }
  }

  /** With both filters at 'All' every case is listed, in order. */
  lemma {:induction false} AllFiltersKeepEverything(cases: seq<PendingCase>)
    ensures FilteredCases(cases, "All", "All") == cases
    decreases |cases|
  {
    if |cases| > 0 {
      AllFiltersKeepEverything(cases[1..]);
    }
  }

  /**
   * Choosing a status instead of 'All' filters the wider list further: it
   * only removes cases, and keeps the order of the rest.
   */
  lemma {:induction false} NarrowingStatusRefines(cases: seq<PendingCase>, status: string, priorityFilter: string)
    ensures FilteredCases(cases, status, priorityFilter)
         == FilteredCases(FilteredCases(cases, "All", priorityFilter), status, "All")
    decreases |cases|
  {
    if |cases| > 0 {
      NarrowingStatusRefines(cases[1..], status, priorityFilter);
      var wide := FilteredCases(cases, "All", priorityFilter);
      if Passes(cases[0], "All", priorityFilter) {
        assert wide[0] == cases[0] && wide[1..] == FilteredCases(cases[1..], "All", priorityFilter);
      }
    }
  }

  /** The action view wins over the details view, which wins over the list. */
  function CurrentView(actionType: Option<Action>, selectedCase: Option<PendingCase>): (r: View)
    ensures r == ActionView <==> actionType.Some? && selectedCase.Some?
    ensures r == DetailsView <==> actionType.None? && selectedCase.Some?
    ensures r == ListView <==> selectedCase.None?
  {
    if actionType.Some? && selectedCase.Some? then ActionView
    else if selectedCase.Some? then DetailsView
    else ListView
  }

  /** The submit button: off while submitting, and for a non-approval without a message. */
  function SubmitDisabled(isSubmitting: bool, action: Action, message: string): (r: bool)
    ensures !isSubmitting && action == ApproveAction ==> !r
    ensures !r ==> !isSubmitting && (action == ApproveAction || !Blank(message))
    ensures isSubmitting ==> r
    ensures !isSubmitting && action != ApproveAction && !Blank(message) ==> !r
  {
    isSubmitting || (action != ApproveAction && Blank(message))
  }

  class CaseReview {
    var selectedCase: Option<PendingCase>
    var statusFilter: string
    var priorityFilter: string
    var actionType: Option<Action>
    var responseMessage: string
    var isSubmitting: bool
    var isSubmitted: bool
    /** The two-second reset after a submit is scheduled. */
    var resetPending: bool

    /** The confirmation screen is shown only for a submitted action on a selected case, until the reset. */
    ghost predicate Valid()
      reads this
    {
      isSubmitted ==> resetPending && actionType.Some? && selectedCase.Some?
    }

    constructor()
      ensures Valid()
      ensures selectedCase.None? && actionType.None? && statusFilter == "All" && priorityFilter == "All"
      ensures responseMessage == "" && !isSubmitting && !isSubmitted && !resetPending
    {
      selectedCase := None;
      statusFilter := "All";
      priorityFilter := "All";
      actionType := None;
      responseMessage := "";
      isSubmitting := false;
      isSubmitted := false;
      resetPending := false;
    }

    /** Clicking a case in the list opens its details. */
    method SelectCase(c: PendingCase)
      requires Valid()
      modifies this`selectedCase
      ensures Valid() && selectedCase == Some(c)
    {
      selectedCase := Some(c);
    }

    /** 'Back to Cases' from the details view returns to the list. */
    method BackToCases()
      requires Valid() && actionType.None?
      modifies this`selectedCase
      ensures Valid() && selectedCase.None?
      ensures CurrentView(actionType, selectedCase) == ListView
    {
      selectedCase := None;
    }

    /** handleCaseAction: the chosen action, with an empty response. */
    method HandleCaseAction(action: Action)
      requires Valid()
      modifies this`actionType, this`responseMessage
      ensures Valid()
      ensures actionType == Some(action) && responseMessage == ""
    {
      actionType := Some(action);
      responseMessage := "";
    }

    /** 'Back to Case' from the action form. */
    method BackToCase()
      requires Valid() && !isSubmitted
      modifies this`actionType
      ensures Valid() && actionType.None?
    {
      actionType := None;
    }

    /**
     * handleSubmitAction: nothing without both a case and an action;
     * otherwise the (simulated) call completes, the confirmation shows and
     * the reset is scheduled. The call cannot fail, so the alert branch is
     * never taken.
     */
    method HandleSubmitAction() returns (submitted: bool)
      requires Valid()
      modifies this`isSubmitting, this`isSubmitted, this`resetPending
      ensures Valid()
      ensures submitted <==> selectedCase.Some? && actionType.Some?
      ensures submitted ==> isSubmitted && resetPending
      ensures !submitted ==> isSubmitted == old(isSubmitted) && resetPending == old(resetPending)
      ensures submitted ==> !isSubmitting
    {
      if selectedCase.None? || actionType.None? {
        return false;
      }
      isSubmitting := true;
      isSubmitted := true;
      resetPending := true;
      isSubmitting := false;
      submitted := true;
    }

    /** The delayed reset: back to the list with no action, message or confirmation. */
    method ResetFires()
      requires Valid() && resetPending
      modifies this`isSubmitted, this`actionType, this`responseMessage, this`selectedCase, this`resetPending
      ensures Valid()
      ensures !isSubmitted && actionType.None? && responseMessage == "" && selectedCase.None? && !resetPending
      ensures CurrentView(actionType, selectedCase) == ListView
    {
      isSubmitted := false;
      actionType := None;
      responseMessage := "";
      selectedCase := None;
      resetPending := false;
    }
  }
}
