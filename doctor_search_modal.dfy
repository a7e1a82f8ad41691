/**
 * The patient's doctor search: the search trigger, the result display,
 * the name and initials fallbacks, and sending a request with its delayed
 * reset.
 */
module DoctorSearchModal {
  import opened Wrappers
  import opened Text

  datatype SearchDoctor = SearchDoctor(id: string, profileId: string, fullName: Option<string>)

  datatype Display = LoadingSpinner | ResultList | NoDoctorsFound | SearchPrompt

  datatype Screen = Confirmation | DoctorDetail | SearchList

  const UnknownDoctor := "Unknown Doctor"
  const RequestFailedText := "Failed to send request. Please try again."

  /** getDoctorFullName: the profile's name, or 'Unknown Doctor'. */
  function DoctorFullName(d: SearchDoctor): (r: string)
    ensures d.fullName.Some? && d.fullName.value != "" ==> r == d.fullName.value
    ensures d.fullName.None? || d.fullName.value == "" ==> r == UnknownDoctor
  {
    if d.fullName.Some? && d.fullName.value != "" then d.fullName.value else UnknownDoctor
  }

  /**
   * getDoctorInitials: the upper-cased first letters of the name; a doctor
   * without a profile name gets 'UD', taken from the fallback name.
   */
  function DoctorInitials(d: SearchDoctor): (r: string)
    ensures d.fullName.None? || d.fullName.value == "" ==> r == "UD"
    ensures var ws := Split(DoctorFullName(d), ' ');
      (forall i :: 0 <= i < |ws| ==> ws[i] != "") ==>
        |r| == |ws| && forall i :: 0 <= i < |ws| ==> r[i] == Upper(ws[i][0])
  {
    if d.fullName.None? || d.fullName.value == "" then
      assert UnknownDoctor == "Unknown" + " " + "Doctor";
      InitialsOfTwoWords("Unknown", "Doctor");
      Initials(DoctorFullName(d))
    else
      Initials(DoctorFullName(d))
  }

  /** The search runs only while the dialog is open and the query has a character that is not white space. */
  function ShouldSearch(isOpen: bool, query: string): (r: bool)
    ensures r <==> isOpen && exists i :: 0 <= i < |query| && !IsSpace(query[i])
  {
    BlankIffAllSpace(query);
    isOpen && !Blank(query)
  }

  /** The result area: the spinner, else the results, else 'No doctors found' for a real query, else the prompt. */
  function DisplayFor(isLoading: bool, doctors: seq<SearchDoctor>, query: string): (r: Display)
    ensures r == LoadingSpinner <==> isLoading
    ensures r == ResultList <==> !isLoading && |doctors| > 0
    ensures r == NoDoctorsFound <==> !isLoading && |doctors| == 0 && !Blank(query)
    ensures r == SearchPrompt <==> !isLoading && |doctors| == 0 && Blank(query)
  {
    if isLoading then LoadingSpinner
    else if |doctors| > 0 then ResultList
    else if !Blank(query) then NoDoctorsFound
    else SearchPrompt
  }

  /** The dialog shows the confirmation first, then the selected doctor, then the search. */
  function ScreenFor(isSubmitted: bool, selected: Option<SearchDoctor>): (r: Screen)
    ensures r == Confirmation <==> isSubmitted
    ensures r == DoctorDetail <==> !isSubmitted && selected.Some?
    ensures r == SearchList <==> !isSubmitted && selected.None?
  {
    if isSubmitted then Confirmation
    else if selected.Some? then DoctorDetail
    else SearchList
  }

  class DoctorSearch {
    var searchQuery: string
    var doctors: seq<SearchDoctor>
    var selectedDoctor: Option<SearchDoctor>
    var message: string
    var isLoading: bool
    var isSubmitting: bool
    var isSubmitted: bool
    /** The two-second reset after a request is scheduled. */
    var resetPending: bool
    /** The searches issued, and the (doctor profile id, message) requests sent, in order. */
    var searches: seq<string>
    var requestsSent: seq<(string, string)>
    var alerts: seq<string>
    var closeCount: nat

    ghost predicate Valid()
      reads this
    {
      (isSubmitted <==> resetPending) && (isSubmitted ==> selectedDoctor.Some?)
    }

    constructor()
      ensures Valid()
      ensures searchQuery == "" && doctors == [] && selectedDoctor.None? && message == ""
      ensures !isLoading && !isSubmitting && !isSubmitted
      ensures searches == [] && requestsSent == [] && alerts == [] && closeCount == 0
    {
      searchQuery := "";
      doctors := [];
      selectedDoctor := None;
      message := "";
      isLoading := false;
      isSubmitting := false;
      isSubmitted := false;
      resetPending := false;
      searches := [];
      requestsSent := [];
      alerts := [];
      closeCount := 0;
    }

    /**
     * Typing in the search box: the effect searches only when the dialog
     * is open and the query is not blank; a failed search keeps the old
     * results, and a blank query leaves them too.
     */
    method QueryChanged(query: string, isOpen: bool, results: Settled<seq<SearchDoctor>>)
      returns (searched: bool)
      requires Valid()
      modifies this`searchQuery, this`doctors, this`isLoading, this`searches
      ensures Valid()
      ensures searched <==> ShouldSearch(isOpen, query)
      ensures searched ==> searches == old(searches) + [query]
      ensures !searched ==> searches == old(searches) && doctors == old(doctors)
      ensures searched && results.Resolved? ==> doctors == results.value
      ensures searched && results.Rejected? ==> doctors == old(doctors)
      ensures searchQuery == query && isLoading == (old(isLoading) && !searched)
    {
      searchQuery := query;
      searched := false;
      if isOpen && !Blank(searchQuery) {
        searched := true;
        isLoading := true;
        searches := searches + [searchQuery];
        if results.Resolved? {
          doctors := results.value;
        }
        isLoading := false;
      }
    }

    method Select(d: SearchDoctor)
      requires Valid()
      modifies this`selectedDoctor
      ensures Valid() && selectedDoctor == Some(d)
    {
      selectedDoctor := Some(d);
    }

    /** Typing in the request's message box. */
    method SetMessage(text: string)
      requires Valid()
      modifies this`message
      ensures Valid() && message == text
    {
      message := text;
    }

    /** 'Back to search' from the selected doctor. */
    method Deselect()
      requires Valid() && ScreenFor(isSubmitted, selectedDoctor) == DoctorDetail
      modifies this`selectedDoctor
      ensures Valid() && selectedDoctor.None?
    {
      selectedDoctor := None;
    }

    /**
     * handleRequestDoctor: nothing without a selected doctor; otherwise the
     * request goes out with the message, and success shows the
     * confirmation and schedules the reset while failure alerts.
     */
    method HandleRequestDoctor(fault: Option<string>) returns (sent: bool)
      requires Valid()
      modifies this`isSubmitting, this`isSubmitted, this`resetPending, this`requestsSent, this`alerts
      ensures Valid()
      ensures sent <==> old(selectedDoctor).Some?
      ensures !sent ==> requestsSent == old(requestsSent) && isSubmitted == old(isSubmitted) && alerts == old(alerts)
      ensures sent ==> requestsSent == old(requestsSent) + [(selectedDoctor.value.profileId, message)] && !isSubmitting
      ensures sent && fault.None? ==> isSubmitted && resetPending && alerts == old(alerts)
      ensures sent && fault.Some? ==> isSubmitted == old(isSubmitted) && alerts == old(alerts) + [RequestFailedText]
    {
      if selectedDoctor.None? {
        return false;
      }
      sent := true;
      isSubmitting := true;
      requestsSent := requestsSent + [(selectedDoctor.value.profileId, message)];
      if fault.None? {
        isSubmitted := true;
        resetPending := true;
      } else {
        alerts := alerts + [RequestFailedText];
      }
      isSubmitting := false;
    }

    /** The delayed reset: selection, message, query and results cleared, then the dialog closes. */
    method ResetFires()
      requires Valid() && resetPending
      modifies this`isSubmitted, this`resetPending, this`selectedDoctor, this`message,
        this`searchQuery, this`doctors, this`closeCount
      ensures Valid()
      ensures !isSubmitted && selectedDoctor.None? && message == "" && searchQuery == "" && doctors == []
      ensures closeCount == old(closeCount) + 1
      ensures !isLoading ==> DisplayFor(isLoading, doctors, searchQuery) == SearchPrompt
    {
      isSubmitted := false;
      resetPending := false;
      selectedDoctor := None;
      message := "";
      searchQuery := "";
      doctors := [];
      closeCount := closeCount + 1;
    }
  }
}
