/**
 * The doctor dashboard: the patient list filter, the age and initials
 * helpers, the transform of loaded patients, the added patients and
 * appointments, and the notification list with its unread counter.
 */
module DoctorDashboard {
  import opened Wrappers
  import opened Text

  /** A calendar day; `month` counts from 0 as JavaScript's `getMonth` does. */
  datatype Date = Date(year: int, month: int, day: int)

  datatype Patient = Patient(
    id: string,
    fullName: Option<string>,
    dateOfBirth: Option<Date>,
    medicalHistory: Option<string>,
    condition: Option<string>,
    status: Option<string>,
    priority: Option<string>)

  datatype Appointment = Appointment(id: string, patientName: string, time: string, status: string)

  /** A row of `notifications`: `kind` is its `type`, `requestId` its `data.request_id`. */
  datatype Notification = Notification(id: string, title: string, kind: string, read: bool, requestId: Option<string>)

  // ---------------------------------------------------------------------
  // Patient list
  // ---------------------------------------------------------------------

  function OrDefault(v: Option<string>, d: string): string
  {
    if v.Some? && v.value != "" then v.value else d
  }

  /**
   * The filter's test: the name or the condition contains the search term
   * ignoring case, and the status filter is 'All' or the patient's status
   * ('Stable' when it has none).
   */
  predicate Keeps(p: Patient, searchTerm: string, statusFilter: string)
  {
    && ((p.fullName.Some? && IncludesFolded(p.fullName.value, searchTerm))
        || IncludesFolded(OrDefault(p.condition, ""), searchTerm))
    && (statusFilter == "All" || OrDefault(p.status, "Stable") == statusFilter)
  }

  /** filteredPatients: missing entries are dropped, the kept ones stay in order. */
  function FilteredPatients(patients: seq<Option<Patient>>, searchTerm: string, statusFilter: string)
    : (r: seq<Patient>)
    ensures |r| <= |patients|
    ensures forall p :: p in r <==> Some(p) in patients && Keeps(p, searchTerm, statusFilter)
    decreases |patients|
  {
    if |patients| == 0 then []
    else
      var rest := FilteredPatients(patients[1..], searchTerm, statusFilter);
      assert forall x :: x in patients <==> x == patients[0] || x in patients[1..];
      if patients[0].Some? && Keeps(patients[0].value, searchTerm, statusFilter)
      then [patients[0].value] + rest
      else rest
  }

  /** The patients actually present, in order. */
  function Present(patients: seq<Option<Patient>>): seq<Patient>
    decreases |patients|
  {
    if |patients| == 0 then []
    else (if patients[0].Some? then [patients[0].value] else []) + Present(patients[1..])
  }

  /** The filter keeps the patients' order: it is taken entry by entry, so it distributes over `+`. */
  lemma {:induction false} FilteredPatientsAppend(a: seq<Option<Patient>>, b: seq<Option<Patient>>,
                                                 searchTerm: string, statusFilter: string)
    ensures FilteredPatients(a + b, searchTerm, statusFilter)
         == FilteredPatients(a, searchTerm, statusFilter) + FilteredPatients(b, searchTerm, statusFilter)
    decreases |a|
  {
    if |a| > 0 {
      assert (a + b)[1..] == a[1..] + b;
      FilteredPatientsAppend(a[1..], b, searchTerm, statusFilter);
    } else {
      assert a + b == b;
    }
  }

  /** An empty search with the 'All' filter keeps every present patient, in order. */
  lemma {:induction false} EmptySearchKeepsAll(patients: seq<Option<Patient>>)
    ensures FilteredPatients(patients, "", "All") == Present(patients)
    decreases |patients|
  {
    if |patients| > 0 {
      EmptySearchKeepsAll(patients[1..]);
      if patients[0].Some? {
        IncludesEmpty(OrDefault(patients[0].value.condition, ""));
      }
    }
  }

  // ---------------------------------------------------------------------
  // Age and initials
  // ---------------------------------------------------------------------

  datatype Age = NotAvailable | Years(years: int)

  /** Day `a` comes strictly before day `b`. */
  predicate Before(a: Date, b: Date)
  {
    a.year < b.year || (a.year == b.year && (a.month < b.month || (a.month == b.month && a.day < b.day)))
  }

  /** The anniversary of `d` after `k` years. */
  function Anniversary(d: Date, k: int): Date
  {
    d.(year := d.year + k)
  }

  /**
   * getPatientAge: 'N/A' without a date of birth; otherwise the completed
   * years, that is the number of anniversaries reached by `today`.
   */
  function PatientAge(dateOfBirth: Option<Date>, today: Date): (r: Age)
    ensures r.NotAvailable? <==> dateOfBirth.None?
    ensures r.Years? ==>
      && !Before(today, Anniversary(dateOfBirth.value, r.years))
      && Before(today, Anniversary(dateOfBirth.value, r.years + 1))
  {
    if dateOfBirth.None? then NotAvailable
    else
      var birth := dateOfBirth.value;
      var age := today.year - birth.year;
      var monthDiff := today.month - birth.month;
      if monthDiff < 0 || (monthDiff == 0 && today.day < birth.day) then Years(age - 1) else Years(age)
  }

  /**
   * getPatientInitials: 'N/A' for an empty name, otherwise the first
   * letter of each space-separated word, upper-cased.
   */
  function PatientInitials(fullName: string): (r: string)
    ensures fullName == "" ==> r == "N/A"
    ensures fullName != "" && ' ' !in fullName ==> r == [Upper(fullName[0])]
    ensures fullName != "" ==> |r| <= |Split(fullName, ' ')|
    ensures var ws := Split(fullName, ' ');
      (forall i :: 0 <= i < |ws| ==> ws[i] != "") ==>
        |r| == |ws| && forall i :: 0 <= i < |ws| ==> r[i] == Upper(ws[i][0])
  {
    if fullName == "" then
      assert Split(fullName, ' ')[0] == "";
      "N/A"
    else if ' ' !in fullName then
      InitialsOfWord(fullName);
      Initials(fullName)
    else Initials(fullName)
  }

  /** A two-word name gives both first letters. */
  lemma TwoWordInitials(first: string, last: string)
    requires first != "" && ' ' !in first && last != "" && ' ' !in last
    ensures PatientInitials(first + " " + last) == [Upper(first[0]), Upper(last[0])]
  {
    InitialsOfTwoWords(first, last);
  }

  // ---------------------------------------------------------------------
  // Loading
  // ---------------------------------------------------------------------

  /** A loaded patient: condition from the medical history, status 'Stable', priority 'Low'. */
  function Transformed(p: Patient): (r: Patient)
    ensures r.id == p.id && r.fullName == p.fullName && r.dateOfBirth == p.dateOfBirth
    ensures r.condition == Some(if p.medicalHistory.Some? && p.medicalHistory.value != ""
                                then "Chronic condition" else "General care")
    ensures r.status == Some("Stable") && r.priority == Some("Low")
  {
    p.(condition := Some(if p.medicalHistory.Some? && p.medicalHistory.value != ""
                         then "Chronic condition" else "General care"),
       status := Some("Stable"),
       priority := Some("Low"))
  }

  function TransformAll(ps: seq<Patient>): (r: seq<Option<Patient>>)
    ensures |r| == |ps|
    ensures forall i :: 0 <= i < |ps| ==> r[i] == Some(Transformed(ps[i]))
    decreases |ps|
  {
    if |ps| == 0 then [] else [Some(Transformed(ps[0]))] + TransformAll(ps[1..])
  }

  /** A freshly loaded list passes the default 'Stable' filter whole. */
  lemma {:induction false} LoadedPatientsAreStable(ps: seq<Patient>)
    ensures FilteredPatients(TransformAll(ps), "", "Stable") == Present(TransformAll(ps))
    decreases |ps|
  {
    if |ps| > 0 {
      LoadedPatientsAreStable(ps[1..]);
      assert TransformAll(ps)[1..] == TransformAll(ps[1..]);
      IncludesEmpty(OrDefault(Transformed(ps[0]).condition, ""));
    }
  }

  // ---------------------------------------------------------------------
  // Notifications
  // ---------------------------------------------------------------------

  function UnreadCount(ns: seq<Notification>): (r: nat)
    ensures r <= |ns|
    decreases |ns|
  {
    if |ns| == 0 then 0 else (if ns[0].read then 0 else 1) + UnreadCount(ns[1..])
  }

  /** `prev.map(n => n.id === id ? { ...n, read: true } : n)`. */
  function MarkRead(ns: seq<Notification>, id: string): (r: seq<Notification>)
    ensures |r| == |ns|
    ensures forall i :: 0 <= i < |ns| ==> r[i] == (if ns[i].id == id then ns[i].(read := true) else ns[i])
    decreases |ns|
  {
    if |ns| == 0 then []
    else [if ns[0].id == id then ns[0].(read := true) else ns[0]] + MarkRead(ns[1..], id)
  }

  function MarkAllRead(ns: seq<Notification>): (r: seq<Notification>)
    ensures |r| == |ns|
    ensures forall i :: 0 <= i < |ns| ==> r[i] == ns[i].(read := true)
    decreases |ns|
  {
    if |ns| == 0 then [] else [ns[0].(read := true)] + MarkAllRead(ns[1..])
  }

  predicate UniqueIds(ns: seq<Notification>)
  {
    forall i, j :: 0 <= i < j < |ns| ==> ns[i].id != ns[j].id
  }

  /** Marking the one unread notification with an id lowers the unread count by one. */
  lemma {:induction false} MarkReadCountsDown(ns: seq<Notification>, id: string, k: nat)
    requires UniqueIds(ns) && k < |ns| && ns[k].id == id && !ns[k].read
    ensures UnreadCount(MarkRead(ns, id)) == UnreadCount(ns) - 1
    decreases |ns|
  {
    assert MarkRead(ns, id)[1..] == MarkRead(ns[1..], id);
    if k == 0 {
      MarkReadMissing(ns[1..], id);
    } else {
      MarkReadCountsDown(ns[1..], id, k - 1);
    }
  }

  /** Marking an id that no notification has changes nothing. */
  lemma {:induction false} MarkReadMissing(ns: seq<Notification>, id: string)
    requires forall i :: 0 <= i < |ns| ==> ns[i].id != id
    ensures MarkRead(ns, id) == ns
    decreases |ns|
  {
    if |ns| > 0 {
      MarkReadMissing(ns[1..], id);
    }
  }

  lemma {:induction false} AllReadHasNoUnread(ns: seq<Notification>)
    ensures UnreadCount(MarkAllRead(ns)) == 0
    decreases |ns|
  {
    if |ns| > 0 {
      assert MarkAllRead(ns)[1..] == MarkAllRead(ns[1..]);
      AllReadHasNoUnread(ns[1..]);
    }
  }

  /** Some notification with this id is still unread. */
  predicate HasUnread(ns: seq<Notification>, id: string)
  {
    exists k :: 0 <= k < |ns| && ns[k].id == id && !ns[k].read
  }

  /** Marking an unread notification keeps the ids distinct and takes one off the count. */
  lemma MarkReadKeepsCount(ns: seq<Notification>, id: string)
    requires UniqueIds(ns) && HasUnread(ns, id)
    ensures UniqueIds(MarkRead(ns, id))
    ensures UnreadCount(MarkRead(ns, id)) == UnreadCount(ns) - 1
  {
    var k :| 0 <= k < |ns| && ns[k].id == id && !ns[k].read;
    MarkReadCountsDown(ns, id, k);
    var r := MarkRead(ns, id);
    assert forall i :: 0 <= i < |ns| ==> r[i].id == ns[i].id;
  }

  /** The bell badge: hidden at zero, the count up to 9, then '9+'. */
  function BadgeText(unreadCount: int): (r: Option<string>)
    ensures r.None? <==> unreadCount <= 0
    ensures unreadCount > 9 ==> r == Some("9+")
    ensures 0 < unreadCount <= 9 ==> r == Some([DigitChar(unreadCount)])
  {
    if unreadCount <= 0 then None
    else if unreadCount > 9 then Some("9+")
    else Some(NatToString(unreadCount))
  }

  class DoctorBoard {
    var patients: seq<Option<Patient>>
    var appointments: seq<Appointment>
    var notifications: seq<Notification>
    var unreadCount: int
    var isLoading: bool

    /** The counter agrees with the list and the ids are distinct. */
    ghost predicate CountAgrees()
      reads this
    {
      UniqueIds(notifications) && unreadCount == UnreadCount(notifications)
    }

    constructor(mockAppointments: seq<Appointment>)
      ensures CountAgrees()
      ensures patients == [] && appointments == mockAppointments && notifications == []
      ensures unreadCount == 0 && isLoading
    {
      patients := [];
      appointments := mockAppointments;
      notifications := [];
      unreadCount := 0;
      isLoading := true;
    }

    /** loadDoctorData: on success the transformed list replaces the old one; loading ends either way. */
    method LoadDoctorData(loaded: Settled<seq<Patient>>)
      modifies this`patients, this`isLoading
      ensures !isLoading
      ensures patients == (if loaded.Resolved? then TransformAll(loaded.value) else old(patients))
    {
      isLoading := true;
      if loaded.Resolved? {
        patients := TransformAll(loaded.value);
      }
      isLoading := false;
    }

    /**
     * loadNotifications: the list and the number of its unread entries;
     * errors keep both. Whatever the counter was, a successful load puts
     * it back in step with the list.
     */
    method LoadNotifications(loaded: Settled<seq<Notification>>)
      modifies this`notifications, this`unreadCount
      ensures loaded.Resolved? ==> notifications == loaded.value && unreadCount == UnreadCount(loaded.value)
      ensures loaded.Resolved? && UniqueIds(loaded.value) ==> CountAgrees()
      ensures loaded.Rejected? ==> notifications == old(notifications) && unreadCount == old(unreadCount)
    {
      if loaded.Resolved? {
        notifications := loaded.value;
        unreadCount := UnreadCount(loaded.value);
      }
    }

    /**
     * handleMarkNotificationAsRead: after the server call, that id is read
     * and the counter drops by one, not below zero; a failed call changes
     * nothing. The counter stays in step only for an id that was unread.
     */
    method MarkNotificationAsRead(id: string, fault: Option<string>)
      modifies this`notifications, this`unreadCount
      ensures fault.Some? ==> notifications == old(notifications) && unreadCount == old(unreadCount)
      ensures fault.None? ==>
        (notifications == MarkRead(old(notifications), id)
         && unreadCount == (if old(unreadCount) - 1 > 0 then old(unreadCount) - 1 else 0))
      ensures fault.None? && old(CountAgrees()) && HasUnread(old(notifications), id) ==> CountAgrees()
    {
      if fault.None? {
        if UniqueIds(notifications) && unreadCount == UnreadCount(notifications) && HasUnread(notifications, id) {
          MarkReadKeepsCount(notifications, id);
        }
        notifications := MarkRead(notifications, id);
        unreadCount := if unreadCount - 1 > 0 then unreadCount - 1 else 0;
      }
    }

    /**
     * handleMarkAllAsRead: every notification read and the counter zero,
     * which agrees with the list even when the counter had drifted.
     */
    method MarkAllAsRead(fault: Option<string>)
      modifies this`notifications, this`unreadCount
      ensures fault.None? ==> unreadCount == UnreadCount(notifications)
      ensures fault.None? && UniqueIds(old(notifications)) ==> CountAgrees()
      ensures fault.Some? ==> notifications == old(notifications) && unreadCount == old(unreadCount)
      ensures fault.None? ==> notifications == MarkAllRead(old(notifications)) && unreadCount == 0
    {
      if fault.None? {
        AllReadHasNoUnread(notifications);
        notifications := MarkAllRead(notifications);
        unreadCount := 0;
      }
    }

    /**
     * handlePatientAccepted: both lists are reloaded. A successful
     * notification load brings a drifted counter back in step.
     */
    method HandlePatientAccepted(patientsLoaded: Settled<seq<Patient>>,
                                 notificationsLoaded: Settled<seq<Notification>>)
      modifies this`patients, this`isLoading, this`notifications, this`unreadCount
      ensures !isLoading
      ensures patients == (if patientsLoaded.Resolved? then TransformAll(patientsLoaded.value) else old(patients))
      ensures notificationsLoaded.Resolved? ==>
        notifications == notificationsLoaded.value && unreadCount == UnreadCount(notifications)
      ensures notificationsLoaded.Rejected? ==>
        notifications == old(notifications) && unreadCount == old(unreadCount)
    {
      LoadDoctorData(patientsLoaded);
      LoadNotifications(notificationsLoaded);
    }

    /** handleAddPatient: the new patient goes to the end. */
    method AddPatient(p: Patient)
      modifies this`patients
      ensures patients == old(patients) + [Some(p)]
    {
      patients := patients + [Some(p)];
    }

    /** handleScheduleAppointment: the new appointment goes to the end. */
    method ScheduleAppointment(a: Appointment)
      modifies this`appointments
      ensures appointments == old(appointments) + [a]
    {
      appointments := appointments + [a];
    }
  }
}
