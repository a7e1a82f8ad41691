/**
 * The patient's "My Doctors" dialog: the name and initials fallbacks, the
 * connection and pending-request checks, the sorted list of specialties
 * and the doctor filter.
 */
module MyDoctorsModal {
  import opened Wrappers
  import opened Text

  /** A `doctors` row with the joined profile's `full_name`. */
  datatype Doctor = Doctor(
    id: string,
    profileId: string,
    specialties: seq<string>,
    clinicName: Option<string>,
    profileFullName: Option<string>)

  /** A `patient_doctor_requests` row with the joined doctor's `full_name`. */
  datatype Request = Request(doctorId: string, status: string, doctorFullName: Option<string>)

  datatype Badge = ConnectedBadge | PendingBadge | SendRequestButton

  const UnknownDoctor := "Unknown Doctor"
  const ClinicPrefix := "Doctor at "
  const FallbackInitials := "DR"

  function Truthy(v: Option<string>): bool
  {
    v.Some? && v.value != ""
  }

  /** getDoctorFullName: the profile's name, else 'Doctor at <clinic>', else 'Unknown Doctor'. */
  function DoctorFullName(d: Doctor): (r: string)
    ensures Truthy(d.profileFullName) ==> r == d.profileFullName.value
    ensures !Truthy(d.profileFullName) && Truthy(d.clinicName) ==> r == ClinicPrefix + d.clinicName.value
    ensures !Truthy(d.profileFullName) && !Truthy(d.clinicName) ==> r == UnknownDoctor
    ensures r != ""
  {
    if Truthy(d.profileFullName) then d.profileFullName.value
    else if Truthy(d.clinicName) then ClinicPrefix + d.clinicName.value
    else UnknownDoctor
  }

  /** getDoctorInitials: 'DR' for both fallback names, else the upper-cased first letters. */
  function DoctorInitials(d: Doctor): (r: string)
    ensures !Truthy(d.profileFullName) ==> r == FallbackInitials
    ensures Truthy(d.profileFullName) && d.profileFullName.value != UnknownDoctor
            && !StartsWith(d.profileFullName.value, "Doctor at") ==>
      var ws := Split(d.profileFullName.value, ' ');
      (forall i :: 0 <= i < |ws| ==> ws[i] != "") ==>
        |r| == |ws| && forall i :: 0 <= i < |ws| ==> r[i] == Upper(ws[i][0])
  {
    var name := DoctorFullName(d);
    if name == UnknownDoctor || StartsWith(name, "Doctor at") then FallbackInitials
    else Initials(name)
  }

  /**
   * A real name that happens to begin with 'Doctor at' is taken for the
   * clinic fallback and also gets 'DR'.
   */
  lemma NameLikeClinicGetsFallback(d: Doctor)
    requires Truthy(d.profileFullName) && StartsWith(d.profileFullName.value, "Doctor at")
    ensures DoctorInitials(d) == FallbackInitials
  {
  }

  /** A one-word profile name gives its first letter. */
  lemma OneWordNameInitial(d: Doctor)
    requires Truthy(d.profileFullName) && ' ' !in d.profileFullName.value
    ensures DoctorInitials(d) == [Upper(d.profileFullName.value[0])]
  {
    var name := d.profileFullName.value;
    assert "Doctor at"[6] == ' ' && UnknownDoctor[7] == ' ';
    InitialsOfWord(name);
  }

  /** getRequestDoctorFullName. */
  function RequestDoctorFullName(r: Request): (name: string)
    ensures Truthy(r.doctorFullName) ==> name == r.doctorFullName.value
    ensures !Truthy(r.doctorFullName) ==> name == UnknownDoctor
  {
    if Truthy(r.doctorFullName) then r.doctorFullName.value else UnknownDoctor
  }

  /** getRequestDoctorInitials. */
  function RequestDoctorInitials(r: Request): (initials: string)
    ensures !Truthy(r.doctorFullName) ==> initials == FallbackInitials
    ensures RequestDoctorFullName(r) != UnknownDoctor ==> initials == Initials(RequestDoctorFullName(r))
  {
    var name := RequestDoctorFullName(r);
    if name == UnknownDoctor then FallbackInitials else Initials(name)
  }

  // ---------------------------------------------------------------------
  // Connection checks and the badge
  // ---------------------------------------------------------------------

  /** isAlreadyConnected: some connected doctor has that profile id. */
  function IsAlreadyConnected(myDoctors: seq<Doctor>, profileId: string): (r: bool)
    ensures r <==> exists i :: 0 <= i < |myDoctors| && myDoctors[i].profileId == profileId
    decreases |myDoctors|
  {
    if |myDoctors| == 0 then false
    else if myDoctors[0].profileId == profileId then true
    else
      var rest := IsAlreadyConnected(myDoctors[1..], profileId);
      assert forall i :: 1 <= i < |myDoctors| ==> myDoctors[i] == myDoctors[1..][i - 1];
      rest
  }

  /** hasPendingRequest: some request to that doctor is still 'pending'. */
  function HasPendingRequest(requests: seq<Request>, profileId: string): (r: bool)
    ensures r <==> exists i :: 0 <= i < |requests| && requests[i].doctorId == profileId && requests[i].status == "pending"
    decreases |requests|
  {
    if |requests| == 0 then false
    else if requests[0].doctorId == profileId && requests[0].status == "pending" then true
    else
      var rest := HasPendingRequest(requests[1..], profileId);
      assert forall i :: 1 <= i < |requests| ==> requests[i] == requests[1..][i - 1];
      rest
  }

  /** The card's badge: Connected, else Request Pending, else the Send Request button. */
  function BadgeFor(myDoctors: seq<Doctor>, requests: seq<Request>, profileId: string): (r: Badge)
    ensures r == ConnectedBadge <==> IsAlreadyConnected(myDoctors, profileId)
    ensures r == PendingBadge <==> !IsAlreadyConnected(myDoctors, profileId) && HasPendingRequest(requests, profileId)
  {
    if IsAlreadyConnected(myDoctors, profileId) then ConnectedBadge
    else if HasPendingRequest(requests, profileId) then PendingBadge
    else SendRequestButton
  }

  // ---------------------------------------------------------------------
  // Specialties: collected in a set, then sorted
  // ---------------------------------------------------------------------

  /** The default order of `Array.prototype.sort` on strings: character by character. */
  predicate Less(a: string, b: string)
    decreases |a|
  {
    if |a| == 0 then |b| > 0
    else if |b| == 0 then false
    else if a[0] == b[0] then Less(a[1..], b[1..])
    else a[0] < b[0]
  }

  lemma {:induction false} LessTotal(a: string, b: string)
    ensures a == b || Less(a, b) || Less(b, a)
    decreases |a|
  {
    if |a| > 0 && |b| > 0 && a[0] == b[0] {
      LessTotal(a[1..], b[1..]);
      if a[1..] == b[1..] {
        assert a == [a[0]] + a[1..] && b == [b[0]] + b[1..];
      }
    }
  }

  lemma {:induction false} LessIrreflexive(a: string)
    ensures !Less(a, a)
    decreases |a|
  {
    if |a| > 0 {
      LessIrreflexive(a[1..]);
    }
  }

  /** Each entry comes strictly before the next. */
  predicate StrictlySorted(xs: seq<string>)
  {
    forall i :: 0 <= i < |xs| - 1 ==> Less(xs[i], xs[i + 1])
  }

  /** Put `s` into a sorted list that lacks it, at its place. */
  function InsertSorted(xs: seq<string>, s: string): (r: seq<string>)
    requires StrictlySorted(xs) && s !in xs
    ensures StrictlySorted(r)
    ensures multiset(r) == multiset(xs) + multiset{s}
    ensures |r| > 0 && (r[0] == s || (|xs| > 0 && r[0] == xs[0]))
    decreases |xs|
  {
    if |xs| == 0 then [s]
    else if Less(s, xs[0]) then [s] + xs
    else
      LessTotal(s, xs[0]);
      var rest := InsertSorted(xs[1..], s);
      assert xs == [xs[0]] + xs[1..];
      [xs[0]] + rest
  }

  ghost function Elems(xs: seq<string>): set<string>
  {
    set x | x in xs
  }

  /** The specialties of the doctors, each once. */
  ghost function AllSpecialties(doctors: seq<Doctor>): set<string>
    decreases |doctors|
  {
    if |doctors| == 0 then {} else Elems(doctors[0].specialties) + AllSpecialties(doctors[1..])
  }

  lemma AllSpecialtiesAppend(doctors: seq<Doctor>, d: Doctor)
    ensures AllSpecialties(doctors + [d]) == AllSpecialties(doctors) + Elems(d.specialties)
    decreases |doctors|
  {
    if |doctors| > 0 {
      assert (doctors + [d])[1..] == doctors[1..] + [d];
      AllSpecialtiesAppend(doctors[1..], d);
    }
  }

  /** A strictly sorted list holds each entry once. */
  lemma {:induction false} SortedHasNoDuplicates(xs: seq<string>)
    requires StrictlySorted(xs)
    ensures forall i, j :: 0 <= i < j < |xs| ==> xs[i] != xs[j]
    decreases |xs|
  {
    if |xs| > 1 {
      SortedHasNoDuplicates(xs[1..]);
      forall j | 0 < j < |xs|
        ensures xs[0] != xs[j]
      {
        LessChain(xs, j);
        LessIrreflexive(xs[0]);
      }
    }
  }

  /** The first entry of a strictly sorted list comes before every later one. */
  lemma {:induction false} LessChain(xs: seq<string>, j: nat)
    requires StrictlySorted(xs) && 0 < j < |xs|
    ensures Less(xs[0], xs[j])
    decreases j
  {
    if j > 1 {
      LessChain(xs, j - 1);
      LessTransitive(xs[0], xs[j - 1], xs[j]);
    }
  }

  lemma {:induction false} LessTransitive(a: string, b: string, c: string)
    requires Less(a, b) && Less(b, c)
    ensures Less(a, c)
    decreases |a|
  {
    if |a| > 0 && a[0] == b[0] && b[0] == c[0] {
      LessTransitive(a[1..], b[1..], c[1..]);
    }
  }

  lemma InsertSortedElems(xs: seq<string>, s: string)
    requires StrictlySorted(xs) && s !in xs
    ensures Elems(InsertSorted(xs, s)) == Elems(xs) + {s}
  {
    var r := InsertSorted(xs, s);
    assert forall x :: x in r <==> x in multiset(r);
    assert forall x :: x in xs <==> x in multiset(xs);
  }

  /** One doctor's specialties go into the sorted list, each at most once. */
  method AddSpecialties(sorted: seq<string>, specialties: seq<string>) returns (r: seq<string>)
    requires StrictlySorted(sorted)
    ensures StrictlySorted(r)
    ensures Elems(r) == Elems(sorted) + Elems(specialties)
  {
    r := sorted;
    var k := 0;
    while k < |specialties|
      invariant 0 <= k <= |specialties|
      invariant StrictlySorted(r)
      invariant Elems(r) == Elems(sorted) + Elems(specialties[..k])
    {
      if specialties[k] !in r {
        InsertSortedElems(r, specialties[k]);
        r := InsertSorted(r, specialties[k]);
      }
      assert specialties[..k + 1] == specialties[..k] + [specialties[k]];
      k := k + 1;
    }
    assert specialties[..k] == specialties;
  }

  /**
   * getUniqueSpecialties: every specialty of every doctor, each once, in
   * sorted order.
   */
  method UniqueSpecialties(doctors: seq<Doctor>) returns (r: seq<string>)
    ensures StrictlySorted(r)
    ensures Elems(r) == AllSpecialties(doctors)
    ensures forall i, j :: 0 <= i < j < |r| ==> r[i] != r[j]
  {
    r := [];
    var i := 0;
    while i < |doctors|
      invariant 0 <= i <= |doctors|
      invariant StrictlySorted(r)
      invariant Elems(r) == AllSpecialties(doctors[..i])
    {
      r := AddSpecialties(r, doctors[i].specialties);
      assert doctors[..i + 1] == doctors[..i] + [doctors[i]];
      AllSpecialtiesAppend(doctors[..i], doctors[i]);
      i := i + 1;
    }
    assert doctors[..i] == doctors;
    SortedHasNoDuplicates(r);
  }

  // ---------------------------------------------------------------------
  // The doctor filter
  // ---------------------------------------------------------------------

  predicate AnyIncludes(xs: seq<string>, query: string)
  {
    exists i :: 0 <= i < |xs| && IncludesFolded(xs[i], query)
  }

  /**
   * The filter's test: an empty query or a match (ignoring case) in the
   * name, a specialty or the clinic; and the specialty filter 'All' or one
   * of the doctor's specialties.
   */
  predicate Shown(d: Doctor, query: string, specialtyFilter: string)
  {
    && (query == "" || IncludesFolded(DoctorFullName(d), query) || AnyIncludes(d.specialties, query)
        || (d.clinicName.Some? && IncludesFolded(d.clinicName.value, query)))
    && (specialtyFilter == "All" || specialtyFilter in d.specialties)
  }

  /** filteredDoctors: the doctors passing the test, in their order. */
  function FilteredDoctors(all: seq<Doctor>, query: string, specialtyFilter: string): (r: seq<Doctor>)
    ensures |r| <= |all|
    ensures forall d :: d in r <==> d in all && Shown(d, query, specialtyFilter)
    decreases |all|
  {
    if |all| == 0 then []
    else
      assert forall d :: d in all <==> d == all[0] || d in all[1..];
      var rest := FilteredDoctors(all[1..], query, specialtyFilter);
      if Shown(all[0], query, specialtyFilter) then [all[0]] + rest else rest
  }

  /** The filter keeps the doctors' order: it is taken doctor by doctor, so it distributes over `+`. */
  lemma {:induction false} FilteredDoctorsAppend(a: seq<Doctor>, b: seq<Doctor>, query: string, specialtyFilter: string)
    ensures FilteredDoctors(a + b, query, specialtyFilter)
         == FilteredDoctors(a, query, specialtyFilter) + FilteredDoctors(b, query, specialtyFilter)
    decreases |a|
  {
    if |a| > 0 {
      assert (a + b)[1..] == a[1..] + b;
      FilteredDoctorsAppend(a[1..], b, query, specialtyFilter);
    } else {
      assert a + b == b;
    }
  }

  /** With no query and the 'All' filter every doctor is listed, in order. */
  lemma {:induction false} NoQueryListsAll(all: seq<Doctor>)
    ensures FilteredDoctors(all, "", "All") == all
    decreases |all|
  {
    if |all| > 0 {
      NoQueryListsAll(all[1..]);
    }
  }

  /** Any specialty offered in the dropdown selects at least one doctor. */
  lemma {:induction false} OfferedSpecialtyIsNotEmpty(all: seq<Doctor>, specialty: string)
    requires specialty in AllSpecialties(all)
    ensures |FilteredDoctors(all, "", specialty)| > 0
    decreases |all|
  {
    if specialty !in all[0].specialties {
      OfferedSpecialtyIsNotEmpty(all[1..], specialty);
    }
  }
  // ---------------------------------------------------------------------
  // The dialog's lists
  // ---------------------------------------------------------------------

  const RequestFailedText := "Failed to send request. Please try again."

  class DoctorsDialog {
    var myDoctors: seq<Doctor>
    var pendingRequests: seq<Request>
    var allDoctors: seq<Doctor>
    var isLoading: bool
    var alerts: seq<string>

    constructor()
      ensures myDoctors == [] && pendingRequests == [] && allDoctors == []
      ensures !isLoading && alerts == []
    {
      myDoctors := [];
      pendingRequests := [];
      allDoctors := [];
      isLoading := false;
      alerts := [];
    }

    /**
     * loadData: the three loads run together and their lists are taken
     * only when both patient loads succeed. A failed doctor search does not
     * fail the whole, since loadAllDoctors turns it into an empty list.
     */
    method LoadData(doctors: Settled<seq<Doctor>>, requests: Settled<seq<Request>>, search: Settled<seq<Doctor>>)
      modifies this`myDoctors, this`pendingRequests, this`allDoctors, this`isLoading
      ensures !isLoading
      ensures doctors.Resolved? && requests.Resolved? ==>
        && myDoctors == doctors.value && pendingRequests == requests.value
        && allDoctors == (if search.Resolved? then search.value else [])
      ensures !(doctors.Resolved? && requests.Resolved?) ==>
        myDoctors == old(myDoctors) && pendingRequests == old(pendingRequests) && allDoctors == old(allDoctors)
    {
      isLoading := true;
      var everyone := if search.Resolved? then search.value else [];
      if doctors.Resolved? && requests.Resolved? {
        myDoctors := doctors.value;
        pendingRequests := requests.value;
        allDoctors := everyone;
      }
      isLoading := false;
    }

    /**
     * handleRequestDoctor: a sent request reloads the lists; a failed one
     * shows the alert and leaves them as they were.
     */
    method HandleRequestDoctor(fault: Option<string>, doctors: Settled<seq<Doctor>>,
                               requests: Settled<seq<Request>>, search: Settled<seq<Doctor>>)
      modifies this`alerts, this`myDoctors, this`pendingRequests, this`allDoctors, this`isLoading
      ensures fault.Some? ==>
        && alerts == old(alerts) + [RequestFailedText] && isLoading == old(isLoading)
        && myDoctors == old(myDoctors) && pendingRequests == old(pendingRequests) && allDoctors == old(allDoctors)
      ensures fault.None? ==> alerts == old(alerts) && !isLoading
      ensures fault.None? && doctors.Resolved? && requests.Resolved? ==>
        && myDoctors == doctors.value && pendingRequests == requests.value
        && allDoctors == (if search.Resolved? then search.value else [])
      ensures fault.None? && !(doctors.Resolved? && requests.Resolved?) ==>
        myDoctors == old(myDoctors) && pendingRequests == old(pendingRequests) && allDoctors == old(allDoctors)
    {
      if fault.Some? {
        alerts := alerts + [RequestFailedText];
        return;
      }
      LoadData(doctors, requests, search);
    }
  }
}
