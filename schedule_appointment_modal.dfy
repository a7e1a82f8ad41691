/**
 * The doctor's appointment form: the patient search, the field edits, the
 * submit rule and the save that resets the form.
 */
module ScheduleAppointmentModal {
  import opened Wrappers
  import opened Text

  datatype PatientOption = PatientOption(id: string, fullName: string)

  datatype Field = PatientId | PatientName | AppointmentType | Date | Time | Duration | Reason | Notes | Location

  datatype Form = Form(
    patientId: string,
    patientName: string,
    appointmentType: string,
    date: string,
    time: string,
    duration: string,
    reason: string,
    notes: string,
    location: string)

  /** The appointment handed to `onSave`: the form, an 'A'-prefixed id and status 'Scheduled'. */
  datatype NewAppointment = NewAppointment(id: string, form: Form, status: string, createdAt: string)

  const DefaultForm := Form("", "", "video", "", "", "30", "", "", "")

  function Get(f: Form, field: Field): string
  {
    match field
    case PatientId => f.patientId
    case PatientName => f.patientName
    case AppointmentType => f.appointmentType
    case Date => f.date
    case Time => f.time
    case Duration => f.duration
    case Reason => f.reason
    case Notes => f.notes
    case Location => f.location
  }

  /** handleInputChange: the named field takes the value, every other field keeps its own. */
  function SetField(f: Form, field: Field, value: string): (r: Form)
    ensures forall other :: Get(r, other) == if other == field then value else Get(f, other)
  {
    match field
    case PatientId => f.(patientId := value)
    case PatientName => f.(patientName := value)
    case AppointmentType => f.(appointmentType := value)
    case Date => f.(date := value)
    case Time => f.(time := value)
    case Duration => f.(duration := value)
    case Reason => f.(reason := value)
    case Notes => f.(notes := value)
    case Location => f.(location := value)
  }

  /** Writing back a field's own value changes nothing. */
  lemma SetOwnValue(f: Form, field: Field)
    ensures SetField(f, field, Get(f, field)) == f
  {
    var r := SetField(f, field, Get(f, field));
    assert forall other :: Get(r, other) == Get(f, other);
    assert Get(r, PatientId) == Get(f, PatientId) && Get(r, PatientName) == Get(f, PatientName);
    assert Get(r, AppointmentType) == Get(f, AppointmentType) && Get(r, Date) == Get(f, Date);
    assert Get(r, Time) == Get(f, Time) && Get(r, Duration) == Get(f, Duration);
    assert Get(r, Reason) == Get(f, Reason) && Get(r, Notes) == Get(f, Notes) && Get(r, Location) == Get(f, Location);
  }

  /** The dropdown: patients whose full name contains the search text, ignoring case, in order. */
  function MatchingPatients(patients: seq<PatientOption>, search: string): (r: seq<PatientOption>)
    ensures |r| <= |patients|
    ensures forall p :: p in r <==> p in patients && IncludesFolded(p.fullName, search)
    decreases |patients|
  {
    if |patients| == 0 then []
    else
      assert forall p :: p in patients <==> p == patients[0] || p in patients[1..];
      var rest := MatchingPatients(patients[1..], search);
      if IncludesFolded(patients[0].fullName, search) then [patients[0]] + rest else rest
  }

  /** The dropdown keeps the patients' order: it is taken patient by patient, so it distributes over `+`. */
  lemma {:induction false} MatchingPatientsAppend(a: seq<PatientOption>, b: seq<PatientOption>, search: string)
    ensures MatchingPatients(a + b, search) == MatchingPatients(a, search) + MatchingPatients(b, search)
    decreases |a|
  {
    if |a| > 0 {
      assert (a + b)[1..] == a[1..] + b;
      MatchingPatientsAppend(a[1..], b, search);
    } else {
      assert a + b == b;
    }
  }

  /** The submit button is off while saving and until patient, date, time and reason are filled in. */
  function SubmitDisabled(isSubmitting: bool, f: Form): (r: bool)
    ensures !r <==> !isSubmitting && f.patientId != "" && f.date != "" && f.time != "" && f.reason != ""
  {
    isSubmitting || f.patientId == "" || f.date == "" || f.time == "" || f.reason == ""
  }

  /** The location field is shown only for in-person appointments. */
  predicate ShowsLocation(f: Form)
  {
    f.appointmentType == "in-person"
  }

  /**
   * Choosing the appointment type decides whether the location field is
   * shown, and editing any other field leaves it as it was.
   */
  lemma LocationFollowsType(f: Form, field: Field, value: string)
    ensures field == AppointmentType ==> (ShowsLocation(SetField(f, field, value)) <==> value == "in-person")
    ensures field != AppointmentType ==> ShowsLocation(SetField(f, field, value)) == ShowsLocation(f)
  {
  }

  /** The default form cannot be submitted, and asks for no location. */
  lemma DefaultFormIsIncomplete()
    ensures SubmitDisabled(false, DefaultForm) && !ShowsLocation(DefaultForm)
  {
    assert DefaultForm.appointmentType[0] == 'v';
  }

  function ScheduledFrom(f: Form, now: nat, stamp: string): (r: NewAppointment)
    ensures r.form == f && r.status == "Scheduled" && r.createdAt == stamp
    ensures |r.id| >= 2 && r.id[0] == 'A' && r.id[1..] == NatToString(now)
  {
    NewAppointment("A" + NatToString(now), f, "Scheduled", stamp)
  }

  class Scheduler {
    var form: Form
    var isSubmitting: bool
    var patientSearch: string
    var showDropdown: bool
    /** The save timer of a submit is running. */
    var savePending: bool
    /** The `formData` the save timer's closure captured when the form was submitted. */
    var submitted: Form
    /** The appointments handed to `onSave`, in order. */
    var saved: seq<NewAppointment>
    var closeCount: nat

    ghost predicate Valid()
      reads this
    {
      savePending <==> isSubmitting
    }

    constructor()
      ensures Valid()
      ensures form == DefaultForm && patientSearch == "" && !showDropdown && !isSubmitting
      ensures saved == [] && closeCount == 0
    {
      form := DefaultForm;
      isSubmitting := false;
      patientSearch := "";
      showDropdown := false;
      savePending := false;
      submitted := DefaultForm;
      saved := [];
      closeCount := 0;
    }

    method HandleInputChange(field: Field, value: string)
      requires Valid()
      modifies this`form
      ensures Valid()
      ensures form == SetField(old(form), field, value)
    {
      form := SetField(form, field, value);
    }

    /** Typing in the search box opens the dropdown; the chosen patient stays chosen. */
    method SearchChanged(text: string)
      requires Valid()
      modifies this`patientSearch, this`showDropdown
      ensures Valid()
      ensures patientSearch == text && showDropdown && form == old(form)
    {
      patientSearch := text;
      showDropdown := true;
    }

    /** handlePatientSelect: id and name from the patient, the name in the box, the dropdown closed. */
    method HandlePatientSelect(p: PatientOption)
      requires Valid()
      modifies this`form, this`patientSearch, this`showDropdown
      ensures Valid()
      ensures form == old(form).(patientId := p.id, patientName := p.fullName)
      ensures patientSearch == p.fullName && !showDropdown
    {
      form := form.(patientId := p.id, patientName := p.fullName);
      patientSearch := p.fullName;
      showDropdown := false;
    }

    /**
     * handleSubmit: saving starts and the simulated call is scheduled with
     * the form as it stands now; later edits do not reach that call.
     */
    method HandleSubmit()
      requires Valid()
      modifies this`isSubmitting, this`savePending, this`submitted
      ensures Valid() && isSubmitting && savePending
      ensures submitted == form
    {
      isSubmitting := true;
      savePending := true;
      submitted := form;
    }

    /**
     * The simulated call completes: the appointment built from the form
     * captured at submission is saved, the dialog closes, and the form and
     * search box return to their defaults.
     */
    method SaveFires(now: nat, stamp: string)
      requires Valid() && savePending
      modifies this
      ensures Valid()
      ensures saved == old(saved) + [ScheduledFrom(old(submitted), now, stamp)]
      ensures closeCount == old(closeCount) + 1
      ensures form == DefaultForm && patientSearch == "" && !isSubmitting
      ensures showDropdown == old(showDropdown) && submitted == old(submitted)
    {
      saved := saved + [ScheduledFrom(submitted, now, stamp)];
      isSubmitting := false;
      savePending := false;
      closeCount := closeCount + 1;
      form := DefaultForm;
      patientSearch := "";
    }
  }

  /**
   * Editing the form while the save is pending does not change what is
   * saved: the appointment is built from the form as it was submitted.
   */
  method EditDuringSaveIsIgnored(s: Scheduler, field: Field, value: string, now: nat, stamp: string)
    requires s.Valid()
    modifies s
    ensures s.saved == old(s.saved) + [ScheduledFrom(old(s.form), now, stamp)]
    ensures s.form == DefaultForm
  {
    s.HandleSubmit();
    s.HandleInputChange(field, value);
    s.SaveFires(now, stamp);
  }
}
