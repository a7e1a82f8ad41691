/**
 * The patient's profile settings: filling the form from the stored
 * profile, turning the form back into a profile update, and submitting it.
 */
module ProfileSettingsModal {
  import opened Wrappers
  import opened Text

  /** The stored profile; every field may be missing. */
  datatype Profile = Profile(
    fullName: Option<string>, phone: Option<string>, dateOfBirth: Option<string>,
    gender: Option<string>, address: Option<string>,
    emergencyContactName: Option<string>, emergencyContactPhone: Option<string>,
    medicalHistory: Option<string>,
    allergies: Option<seq<string>>, currentMedications: Option<seq<string>>,
    insuranceProvider: Option<string>, insuranceNumber: Option<string>)

  /** The form holds every field as text. */
  datatype Form = Form(
    fullName: string, phone: string, dateOfBirth: string, gender: string, address: string,
    emergencyContactName: string, emergencyContactPhone: string, medicalHistory: string,
    allergies: string, currentMedications: string,
    insuranceProvider: string, insuranceNumber: string)

  /** What handleSubmit sends to updateProfile. */
  datatype ProfileUpdate = ProfileUpdate(
    fullName: string, phone: string, dateOfBirth: Option<string>, gender: Option<string>,
    address: string, emergencyContactName: string, emergencyContactPhone: string,
    medicalHistory: string, allergies: seq<string>, currentMedications: seq<string>,
    insuranceProvider: string, insuranceNumber: string)

  datatype Field =
    | FullName | Phone | DateOfBirth | Gender | Address
    | EmergencyContactName | EmergencyContactPhone | MedicalHistory
    | Allergies | CurrentMedications | InsuranceProvider | InsuranceNumber

  const EmptyForm := Form("", "", "", "", "", "", "", "", "", "", "", "")
  const UpdateFailedText := "Failed to update profile. Please try again."
  const ListSeparator := ", "

  /** `value || ''` for a text field. */
  function OrEmpty(o: Option<string>): (r: string)
    ensures o.Some? ==> r == o.value
    ensures o.None? ==> r == ""
  {
    if o.Some? then o.value else ""
  }

  /** `list?.join(', ') || ''`. */
  function JoinedList(o: Option<seq<string>>): (r: string)
    ensures o.None? ==> r == ""
    ensures o.Some? ==> r == Join(o.value, ListSeparator)
  {
    if o.Some? then Join(o.value, ListSeparator) else ""
  }

  /** Populating the form from the profile. */
  function FormFrom(p: Profile): (r: Form)
    ensures r.fullName == (if p.fullName.Some? then p.fullName.value else "")
    ensures r.phone == (if p.phone.Some? then p.phone.value else "")
    ensures r.dateOfBirth == (if p.dateOfBirth.Some? then p.dateOfBirth.value else "")
    ensures r.gender == (if p.gender.Some? then p.gender.value else "")
    ensures r.address == (if p.address.Some? then p.address.value else "")
    ensures r.emergencyContactName == (if p.emergencyContactName.Some? then p.emergencyContactName.value else "")
    ensures r.emergencyContactPhone == (if p.emergencyContactPhone.Some? then p.emergencyContactPhone.value else "")
    ensures r.medicalHistory == (if p.medicalHistory.Some? then p.medicalHistory.value else "")
    ensures r.allergies == (if p.allergies.Some? then Join(p.allergies.value, ListSeparator) else "")
    ensures r.currentMedications ==
      (if p.currentMedications.Some? then Join(p.currentMedications.value, ListSeparator) else "")
    ensures r.insuranceProvider == (if p.insuranceProvider.Some? then p.insuranceProvider.value else "")
    ensures r.insuranceNumber == (if p.insuranceNumber.Some? then p.insuranceNumber.value else "")
  {
    Form(OrEmpty(p.fullName), OrEmpty(p.phone), OrEmpty(p.dateOfBirth), OrEmpty(p.gender),
      OrEmpty(p.address), OrEmpty(p.emergencyContactName), OrEmpty(p.emergencyContactPhone),
      OrEmpty(p.medicalHistory), JoinedList(p.allergies), JoinedList(p.currentMedications),
      OrEmpty(p.insuranceProvider), OrEmpty(p.insuranceNumber))
  }

  /** `text ? text.split(',').map(trim) : []`. */
  function ParseList(s: string): (r: seq<string>)
    ensures s == "" <==> r == []
    ensures s != "" ==> |r| == |Split(s, ',')|
    ensures s != "" ==> forall i :: 0 <= i < |r| ==> r[i] == Trim(Split(s, ',')[i])
  {
    if s == "" then [] else TrimAll(Split(s, ','))
  }

  /** `text || undefined`. */
  function OrUndefined(s: string): (r: Option<string>)
    ensures r.None? <==> s == ""
    ensures r.Some? ==> r.value == s
  {
    if s == "" then None else Some(s)
  }

  /** The update built from the form on submit. */
  function UpdateFrom(f: Form): (r: ProfileUpdate)
    ensures r.dateOfBirth.None? <==> f.dateOfBirth == ""
    ensures r.gender.None? <==> f.gender == ""
    ensures r.allergies == [] <==> f.allergies == ""
    ensures r.currentMedications == [] <==> f.currentMedications == ""
    ensures f.dateOfBirth != "" ==> r.dateOfBirth == Some(f.dateOfBirth)
    ensures f.gender != "" ==> r.gender == Some(f.gender)
    ensures r.allergies == ParseList(f.allergies) && r.currentMedications == ParseList(f.currentMedications)
    ensures r.fullName == f.fullName && r.phone == f.phone && r.address == f.address
    ensures r.emergencyContactName == f.emergencyContactName && r.emergencyContactPhone == f.emergencyContactPhone
    ensures r.medicalHistory == f.medicalHistory
    ensures r.insuranceProvider == f.insuranceProvider && r.insuranceNumber == f.insuranceNumber
  {
    ProfileUpdate(f.fullName, f.phone, OrUndefined(f.dateOfBirth), OrUndefined(f.gender),
      f.address, f.emergencyContactName, f.emergencyContactPhone, f.medicalHistory,
      ParseList(f.allergies), ParseList(f.currentMedications),
      f.insuranceProvider, f.insuranceNumber)
  }

  /** A list item that survives the form unchanged: non-empty, without a comma, already trimmed. */
  predicate CleanItem(x: string)
  {
    x != "" && ',' !in x && Trim(x) == x
  }

  /** Splitting the joined text at commas and trimming each piece gives the items back. */
  lemma {:induction false} SplitJoined(xs: seq<string>)
    requires |xs| >= 1
    requires forall i :: 0 <= i < |xs| ==> CleanItem(xs[i])
    ensures TrimAll(Split(Join(xs, ListSeparator), ',')) == xs
    decreases |xs|
  {
    if |xs| == 1 {
      SplitAppend(xs[0], "", ',');
      assert xs[0] + "" == xs[0];
      assert Join(xs, ListSeparator) == xs[0];
      assert Split(xs[0], ',') == [xs[0]];
    } else {
      var rest := xs[1..];
      var j := Join(rest, ListSeparator);
      assert Join(xs, ListSeparator) == xs[0] + [','] + ([' '] + j);
      SplitAtSeparator(xs[0], [' '] + j, ',');
      var pieces := Split(j, ',');
      assert ([' '] + j)[1..] == j;
      assert Split([' '] + j, ',') == [[' '] + pieces[0]] + pieces[1..];
      TrimLeadingSpace(' ', pieces[0]);
      SplitJoined(rest);
      assert pieces == [pieces[0]] + pieces[1..];
      calc {
        TrimAll(Split(Join(xs, ListSeparator), ','));
        TrimAll([xs[0]] + ([[' '] + pieces[0]] + pieces[1..]));
        [Trim(xs[0])] + TrimAll([[' '] + pieces[0]] + pieces[1..]);
        [xs[0]] + ([Trim(pieces[0])] + TrimAll(pieces[1..]));
        [xs[0]] + TrimAll(pieces);
        [xs[0]] + rest;
      }
      assert [xs[0]] + rest == xs;
    }
  }

  /** A stored list of clean items comes back unchanged after populating the form and submitting it. */
  lemma ListRoundTrip(xs: seq<string>)
    requires forall i :: 0 <= i < |xs| ==> CleanItem(xs[i])
    ensures ParseList(JoinedList(Some(xs))) == xs
  {
    if |xs| > 0 {
      SplitJoined(xs);
      assert Join(xs, ListSeparator) != "" by {
        if |xs| > 1 {
          assert |Join(xs, ListSeparator)| >= |xs[0]|;
        }
      }
    }
  }

  /** A profile with clean lists and no missing field survives populate-then-submit. */
  lemma ProfileRoundTrip(p: Profile)
    requires p.allergies.Some? && p.currentMedications.Some?
    requires forall i :: 0 <= i < |p.allergies.value| ==> CleanItem(p.allergies.value[i])
    requires forall i :: 0 <= i < |p.currentMedications.value| ==> CleanItem(p.currentMedications.value[i])
    ensures UpdateFrom(FormFrom(p)).allergies == p.allergies.value
    ensures UpdateFrom(FormFrom(p)).currentMedications == p.currentMedications.value
    ensures p.dateOfBirth.Some? && p.dateOfBirth.value != "" ==> UpdateFrom(FormFrom(p)).dateOfBirth == p.dateOfBirth
    ensures p.dateOfBirth.None? ==> UpdateFrom(FormFrom(p)).dateOfBirth.None?
    ensures UpdateFrom(FormFrom(p)).fullName == OrEmpty(p.fullName)
  {
    ListRoundTrip(p.allergies.value);
    ListRoundTrip(p.currentMedications.value);
  }

  function Get(f: Form, field: Field): string
  {
    match field
    case FullName => f.fullName
    case Phone => f.phone
    case DateOfBirth => f.dateOfBirth
    case Gender => f.gender
    case Address => f.address
    case EmergencyContactName => f.emergencyContactName
    case EmergencyContactPhone => f.emergencyContactPhone
    case MedicalHistory => f.medicalHistory
    case Allergies => f.allergies
    case CurrentMedications => f.currentMedications
    case InsuranceProvider => f.insuranceProvider
    case InsuranceNumber => f.insuranceNumber
  }

  /** handleInputChange: the named field takes the value and every other field keeps its text. */
  function SetField(f: Form, field: Field, value: string): (r: Form)
    ensures Get(r, field) == value
    ensures forall other :: other != field ==> Get(r, other) == Get(f, other)
  {
    match field
    case FullName => f.(fullName := value)
    case Phone => f.(phone := value)
    case DateOfBirth => f.(dateOfBirth := value)
    case Gender => f.(gender := value)
    case Address => f.(address := value)
    case EmergencyContactName => f.(emergencyContactName := value)
    case EmergencyContactPhone => f.(emergencyContactPhone := value)
    case MedicalHistory => f.(medicalHistory := value)
    case Allergies => f.(allergies := value)
    case CurrentMedications => f.(currentMedications := value)
    case InsuranceProvider => f.(insuranceProvider := value)
    case InsuranceNumber => f.(insuranceNumber := value)
  }

  /** The save button is disabled while saving or while the full name is empty. */
  function SubmitDisabled(isSubmitting: bool, f: Form): (r: bool)
    ensures !r <==> !isSubmitting && |f.fullName| > 0
  {
    isSubmitting || f.fullName == ""
  }

  class ProfileSettings {
    var formData: Form
    /** Profile ids of the connected doctors listed in the dialog. */
    var myDoctors: seq<string>
    var isSubmitting: bool
    var updatesSent: seq<ProfileUpdate>
    var alerts: seq<string>
    var closeCount: nat

    constructor()
      ensures formData == EmptyForm && myDoctors == [] && !isSubmitting
      ensures updatesSent == [] && alerts == [] && closeCount == 0
    {
      formData := EmptyForm;
      myDoctors := [];
      isSubmitting := false;
      updatesSent := [];
      alerts := [];
      closeCount := 0;
    }

    /** The open effect: with a profile and the dialog open, the form is filled and the doctors reloaded. */
    method Open(profile: Option<Profile>, isOpen: bool, doctors: Settled<seq<string>>)
      modifies this`formData, this`myDoctors
      ensures profile.Some? && isOpen ==> formData == FormFrom(profile.value)
      ensures profile.Some? && isOpen && doctors.Resolved? ==> myDoctors == doctors.value
      ensures !(profile.Some? && isOpen && doctors.Resolved?) ==> myDoctors == old(myDoctors)
      ensures !(profile.Some? && isOpen) ==> formData == old(formData)
    {
      if profile.Some? && isOpen {
        formData := FormFrom(profile.value);
        if doctors.Resolved? {
          myDoctors := doctors.value;
        }
      }
    }

    method HandleInputChange(field: Field, value: string)
      modifies this`formData
      ensures formData == SetField(old(formData), field, value)
    {
      formData := SetField(formData, field, value);
    }

    /**
     * handleSubmit: the update built from the form is sent; the dialog
     * closes only when it succeeds, and a failure alerts.
     */
    method HandleSubmit(fault: Option<string>)
      modifies this`isSubmitting, this`updatesSent, this`alerts, this`closeCount
      ensures updatesSent == old(updatesSent) + [UpdateFrom(formData)]
      ensures !isSubmitting
      ensures fault.None? ==> closeCount == old(closeCount) + 1 && alerts == old(alerts)
      ensures fault.Some? ==> closeCount == old(closeCount) && alerts == old(alerts) + [UpdateFailedText]
    {
      isSubmitting := true;
      updatesSent := updatesSent + [UpdateFrom(formData)];
      if fault.None? {
        closeCount := closeCount + 1;
      } else {
        alerts := alerts + [UpdateFailedText];
      }
      isSubmitting := false;
    }
  }
}
