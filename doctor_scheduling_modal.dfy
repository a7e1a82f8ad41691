/**
 * The patient's appointment booking dialog: choosing a doctor from the
 * fixed directory, the scheduling form, and the simulated submission with
 * its two timers.
 */
module DoctorSchedulingModal {
  import opened Wrappers
  import opened Text

  datatype ConsultationType = Video | Phone | InPerson

  /** A directory entry; only the fields the dialog's logic reads are kept. */
  datatype Doctor = Doctor(id: string, name: string, consultationTypes: seq<ConsultationType>)

  datatype Step = SelectDoctor | Schedule

  datatype Screen = Confirmation | DoctorList | ScheduleForm

  /** The fixed directory the dialog offers. */
  const MockDoctors: seq<Doctor> := [
    Doctor("1", "Dr. Sarah Müller", [Video, Phone, InPerson]),
    Doctor("2", "Dr. Michael Schmidt", [Video, Phone]),
    Doctor("3", "Dr. Elena Rodriguez", [Video, InPerson]),
    Doctor("4", "Dr. Thomas Weber", [Video, Phone, InPerson]),
    Doctor("5", "Dr. Priya Patel", [Video, InPerson]),
    Doctor("6", "Dr. Robert Kim", [Video, Phone])
  ]

  const TimeSlots: seq<string> := [
    "09:00", "09:30", "10:00", "10:30", "11:00", "11:30",
    "14:00", "14:30", "15:00", "15:30", "16:00", "16:30"
  ]

  /** Booking is disabled while submitting, or until a date, a time and non-blank symptoms are given. */
  function SubmitDisabled(isSubmitting: bool, date: string, time: string, symptoms: string): (r: bool)
    ensures !r <==> (!isSubmitting && date != "" && time != ""
      && exists i :: 0 <= i < |symptoms| && !IsSpace(symptoms[i]))
  {
    BlankIffAllSpace(symptoms);
    isSubmitting || date == "" || time == "" || Blank(symptoms)
  }

  /** The confirmation replaces everything; otherwise the step picks the list or the form. */
  function ScreenFor(isSubmitted: bool, step: Step): (r: Screen)
    ensures r == Confirmation <==> isSubmitted
    ensures r == DoctorList <==> !isSubmitted && step.SelectDoctor?
    ensures r == ScheduleForm <==> !isSubmitted && step.Schedule?
  {
    if isSubmitted then Confirmation
    else if step.SelectDoctor? then DoctorList
    else ScheduleForm
  }

  class Scheduling {
    var selectedDoctor: Option<Doctor>
    var selectedDate: string
    var selectedTime: string
    var consultationType: ConsultationType
    var symptoms: string
    var isSubmitting: bool
    var isSubmitted: bool
    var step: Step
    /** The 1.5 s simulated request and the 2 s reset that follows it. */
    var requestTimerPending: bool
    var resetTimerPending: bool
    var closeCount: nat

    /**
     * The chosen type is one the chosen doctor offers, the form step always
     * has a doctor, and each timer is pending exactly while its flag is up.
     */
    ghost predicate Valid()
      reads this
    {
      (selectedDoctor.Some? ==> consultationType in selectedDoctor.value.consultationTypes)
      && (step == Schedule ==> selectedDoctor.Some?)
      && (isSubmitting <==> requestTimerPending)
      && (isSubmitted <==> resetTimerPending)
    }

    constructor()
      ensures Valid()
      ensures selectedDoctor.None? && selectedDate == "" && selectedTime == "" && symptoms == ""
      ensures consultationType == Video && step == SelectDoctor
      ensures !isSubmitting && !isSubmitted && closeCount == 0
    {
      selectedDoctor := None;
      selectedDate := "";
      selectedTime := "";
      consultationType := Video;
      symptoms := "";
      isSubmitting := false;
      isSubmitted := false;
      step := SelectDoctor;
      requestTimerPending := false;
      resetTimerPending := false;
      closeCount := 0;
    }

    /** handleDoctorSelect: the doctor's first offered type is preselected and the form opens. */
    method HandleDoctorSelect(doctor: Doctor)
      requires Valid() && doctor in MockDoctors
      modifies this`selectedDoctor, this`consultationType, this`step
      ensures Valid()
      ensures selectedDoctor == Some(doctor) && step == Schedule
      ensures consultationType == doctor.consultationTypes[0]
      ensures consultationType in doctor.consultationTypes
    {
      selectedDoctor := Some(doctor);
      consultationType := doctor.consultationTypes[0];
      step := Schedule;
    }

    /** The type buttons list only the chosen doctor's types. */
    method ChooseConsultationType(t: ConsultationType)
      requires Valid() && selectedDoctor.Some? && t in selectedDoctor.value.consultationTypes
      modifies this`consultationType
      ensures Valid() && consultationType == t
    {
      consultationType := t;
    }

    method SetDate(date: string)
      requires Valid()
      modifies this`selectedDate
      ensures Valid() && selectedDate == date
    {
      selectedDate := date;
    }

    method ChooseTime(time: string)
      requires Valid() && time in TimeSlots
      modifies this`selectedTime
      ensures Valid() && selectedTime == time && selectedTime != ""
    {
      selectedTime := time;
    }

    method SetSymptoms(text: string)
      requires Valid()
      modifies this`symptoms
      ensures Valid() && symptoms == text
    {
      symptoms := text;
    }

    /** Back: the list shows again and the chosen doctor is kept. */
    method Back()
      requires Valid()
      modifies this`step
      ensures Valid() && step == SelectDoctor && ScreenFor(isSubmitted, step) != ScheduleForm
    {
      step := SelectDoctor;
    }

    /** Submitting through the enabled button on the form starts the simulated request. */
    method HandleSubmit()
      requires Valid() && step == Schedule
      requires !SubmitDisabled(isSubmitting, selectedDate, selectedTime, symptoms)
      modifies this`isSubmitting, this`requestTimerPending
      ensures Valid() && isSubmitting
      ensures SubmitDisabled(isSubmitting, selectedDate, selectedTime, symptoms)
    {
      isSubmitting := true;
      requestTimerPending := true;
    }

    /** The simulated request completes: the confirmation shows and the reset is scheduled. */
    method RequestTimerFires()
      requires Valid() && requestTimerPending
      modifies this`isSubmitting, this`isSubmitted, this`requestTimerPending, this`resetTimerPending
      ensures Valid() && !isSubmitting && isSubmitted
      ensures ScreenFor(isSubmitted, step) == Confirmation
    {
      isSubmitting := false;
      requestTimerPending := false;
      isSubmitted := true;
      resetTimerPending := true;
    }

    /**
     * The reset: the dialog closes and the doctor, date, time and symptoms
     * are cleared with the step back at the list; the consultation type is
     * left as it was.
     */
    method ResetTimerFires()
      requires Valid() && resetTimerPending
      modifies this`isSubmitted, this`resetTimerPending, this`selectedDoctor, this`selectedDate,
        this`selectedTime, this`symptoms, this`step, this`closeCount
      ensures Valid()
      ensures !isSubmitted && selectedDoctor.None? && selectedDate == "" && selectedTime == ""
      ensures symptoms == "" && step == SelectDoctor
      ensures closeCount == old(closeCount) + 1
      ensures consultationType == old(consultationType)
    {
      closeCount := closeCount + 1;
      isSubmitted := false;
      resetTimerPending := false;
      selectedDoctor := None;
      selectedDate := "";
      selectedTime := "";
      symptoms := "";
      step := SelectDoctor;
    }
  }
}
