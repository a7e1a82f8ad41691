/**
 * The health worker's view of one patient: editable vital signs, the
 * reported-symptom list, and the prompt sent for an AI analysis.
 */
module PatientAnalysisInterface {
  import opened Text
  import GeminiService

  /**
   * The patient as handed in from the ward overview; the numeric vitals
   * have one decimal and are held in tenths (98.6 is 986).
   */
  datatype Patient = Patient(
    name: string, age: nat, gender: string, condition: string, status: string,
    bloodPressure: string, heartRate: nat, temperature: nat, oxygenSaturation: nat,
    respiratoryRate: nat, allergies: seq<string>, medications: seq<string>)

  /** The vital-signs form: every reading is text. */
  datatype Vitals = Vitals(
    bloodPressure: string, heartRate: string, temperature: string, oxygenSaturation: string,
    respiratoryRate: string, painLevel: string, bloodGlucose: string)

  datatype VitalField =
    | BloodPressure | HeartRate | Temperature | OxygenSaturation
    | RespiratoryRate | PainLevel | BloodGlucose

  const NoSymptomsText := "No specific symptoms reported"
  const NoObservationsText := "No additional observations"
  const AnalysisFailedText :=
    "Unable to generate analysis at this time. Please ensure all patient data is accurate and try again."
  const SavedText := "Patient data saved successfully!"
  const PromptInstructions :=
    "Please provide:\n"
    + "1. Assessment of current vital signs and any concerns\n"
    + "2. Analysis of symptoms and their potential significance\n"
    + "3. Recommendations for continued care or monitoring\n"
    + "4. Any red flags or urgent concerns that need immediate attention\n"
    + "5. Suggested interventions or treatments to consider\n\n"
    + "Format your response in a clear, professional manner suitable for healthcare workers."

  // ---------------------------------------------------------------------
  // vital signs
  // ---------------------------------------------------------------------

  /** `n.toString()` for a one-decimal number held in tenths: "72" for 720, "98.6" for 986. */
  function TenthsToString(t: nat): (r: string)
    ensures t % 10 == 0 ==> r == NatToString(t / 10)
    ensures t % 10 != 0 ==> |r| >= 3 && r[|r| - 2] == '.' && r[|r| - 1] == DigitChar(t % 10)
  {
    if t % 10 == 0 then NatToString(t / 10)
    else NatToString(t / 10) + "." + [DigitChar(t % 10)]
  }

  /** The form starts from the last recorded vitals; pain and glucose start empty. */
  function InitialVitals(p: Patient): (r: Vitals)
    ensures r.painLevel == "" && r.bloodGlucose == ""
    ensures r.bloodPressure == p.bloodPressure
    ensures r.heartRate == TenthsToString(p.heartRate) && r.temperature == TenthsToString(p.temperature)
    ensures r.oxygenSaturation == TenthsToString(p.oxygenSaturation)
    ensures r.respiratoryRate == TenthsToString(p.respiratoryRate)
    ensures r.heartRate != "" && r.temperature != "" && r.oxygenSaturation != "" && r.respiratoryRate != ""
  {
    Vitals(p.bloodPressure, TenthsToString(p.heartRate), TenthsToString(p.temperature),
      TenthsToString(p.oxygenSaturation), TenthsToString(p.respiratoryRate), "", "")
  }

  function GetVital(v: Vitals, field: VitalField): string
  {
    match field
    case BloodPressure => v.bloodPressure
    case HeartRate => v.heartRate
    case Temperature => v.temperature
    case OxygenSaturation => v.oxygenSaturation
    case RespiratoryRate => v.respiratoryRate
    case PainLevel => v.painLevel
    case BloodGlucose => v.bloodGlucose
  }

  /** handleVitalChange: the named reading takes the value and the others keep theirs. */
  function SetVital(v: Vitals, field: VitalField, value: string): (r: Vitals)
    ensures GetVital(r, field) == value
    ensures forall other :: other != field ==> GetVital(r, other) == GetVital(v, other)
  {
    match field
    case BloodPressure => v.(bloodPressure := value)
    case HeartRate => v.(heartRate := value)
    case Temperature => v.(temperature := value)
    case OxygenSaturation => v.(oxygenSaturation := value)
    case RespiratoryRate => v.(respiratoryRate := value)
    case PainLevel => v.(painLevel := value)
    case BloodGlucose => v.(bloodGlucose := value)
  }

  // ---------------------------------------------------------------------
  // symptoms
  // ---------------------------------------------------------------------

  predicate NoDuplicates(xs: seq<string>)
  {
    forall i, j :: 0 <= i < j < |xs| ==> xs[i] != xs[j]
  }

  /** The symptom list holds distinct, trimmed, non-empty entries. */
  predicate CleanSymptoms(xs: seq<string>)
  {
    NoDuplicates(xs) && forall i :: 0 <= i < |xs| ==> xs[i] != "" && Trim(xs[i]) == xs[i]
  }

  /** `xs.filter(s => s !== x)`. */
  function Without(xs: seq<string>, x: string): (r: seq<string>)
    ensures |r| <= |xs|
    ensures forall y :: y in r <==> y in xs && y != x
    decreases |xs|
  {
    if |xs| == 0 then []
    else
      var rest := Without(xs[1..], x);
      assert forall y :: y in xs <==> y == xs[0] || y in xs[1..];
      if xs[0] == x then rest else [xs[0]] + rest
  }

  /** Removing a symptom that was never listed changes nothing. */
  lemma {:induction false} WithoutAbsent(xs: seq<string>, x: string)
    requires x !in xs
    ensures Without(xs, x) == xs
    decreases |xs|
  {
    if |xs| > 0 {
      assert xs[0] != x;
      WithoutAbsent(xs[1..], x);
      assert [xs[0]] + xs[1..] == xs;
    }
  }

  /** Removal works entry by entry, so it distributes over `+` and keeps the others in order. */
  lemma {:induction false} WithoutAppend(xs: seq<string>, ys: seq<string>, x: string)
    ensures Without(xs + ys, x) == Without(xs, x) + Without(ys, x)
    decreases |xs|
  {
    if |xs| > 0 {
      assert (xs + ys)[1..] == xs[1..] + ys;
      WithoutAppend(xs[1..], ys, x);
    } else {
      assert xs + ys == ys;
    }
  }

  /** In a list without duplicates, removing the entry at `k` closes the gap and keeps everything else in order. */
  lemma {:induction false} WithoutAt(xs: seq<string>, k: nat)
    requires NoDuplicates(xs) && k < |xs|
    ensures Without(xs, xs[k]) == xs[..k] + xs[k + 1..]
  {
    var x, before, after := xs[k], xs[..k], xs[k + 1..];
    assert xs == before + ([x] + after);
    forall j | 0 <= j < |before| ensures before[j] != x {
      assert before[j] == xs[j];
    }
    forall j | 0 <= j < |after| ensures after[j] != x {
      assert after[j] == xs[k + 1 + j];
    }
    WithoutAbsent(before, x);
    WithoutAbsent(after, x);
    WithoutAppend([x], after, x);
    assert Without([x], x) == [];
    WithoutAppend(before, [x] + after, x);
  }

  /** Removing a symptom right after adding it gives back the list it was added to. */
  lemma {:induction false} AddThenRemove(xs: seq<string>, x: string)
    requires x !in xs
    ensures Without(xs + [x], x) == xs
    decreases |xs|
  {
    if |xs| == 0 {
      assert Without([x], x) == Without([], x);
    } else {
      assert (xs + [x])[0] == xs[0] && xs[0] != x;
      assert (xs + [x])[1..] == xs[1..] + [x];
      AddThenRemove(xs[1..], x);
      assert [xs[0]] + xs[1..] == xs;
    }
  }

  /** Removal keeps the remaining symptoms clean. */
  lemma {:induction false} WithoutKeepsClean(xs: seq<string>, x: string)
    requires CleanSymptoms(xs)
    ensures CleanSymptoms(Without(xs, x))
    decreases |xs|
  {
    if |xs| > 0 {
      assert CleanSymptoms(xs[1..]);
      WithoutKeepsClean(xs[1..], x);
      var rest := Without(xs[1..], x);
      if xs[0] != x {
        assert xs[0] !in xs[1..];
        assert xs[0] !in rest;
        var r := [xs[0]] + rest;
        forall i, j | 0 <= i < j < |r| ensures r[i] != r[j] {
          if i == 0 {
            assert r[j] in rest;
          } else {
            assert r[i] == rest[i - 1] && r[j] == rest[j - 1];
          }
        }
      }
    }
  }

  /** Appending a new, trimmed, non-blank entry keeps the list clean. */
  lemma AppendKeepsClean(xs: seq<string>, s: string)
    requires CleanSymptoms(xs) && !Blank(s) && Trim(s) !in xs
    ensures CleanSymptoms(xs + [Trim(s)])
  {
    TrimIdempotent(s);
    var r := xs + [Trim(s)];
    forall i, j | 0 <= i < j < |r| ensures r[i] != r[j] {
      if j == |xs| {
        assert r[i] in xs;
      }
    }
  }

  // ---------------------------------------------------------------------
  // the analysis prompt
  // ---------------------------------------------------------------------

  /** `xs.map(x => '- ' + x)`. */
  function Bulleted(xs: seq<string>): (r: seq<string>)
    ensures |r| == |xs|
    ensures forall i :: 0 <= i < |xs| ==> r[i] == "- " + xs[i]
    decreases |xs|
  {
    if |xs| == 0 then [] else ["- " + xs[0]] + Bulleted(xs[1..])
  }

  /** The pain line, present only when a pain level was entered. */
  function PainLine(v: Vitals): (r: string)
    ensures r == "" <==> v.painLevel == ""
  {
    if v.painLevel != "" then "- Pain Level: " + v.painLevel + "/10" else ""
  }

  /** The glucose line, present only when a reading was entered. */
  function GlucoseLine(v: Vitals): (r: string)
    ensures r == "" <==> v.bloodGlucose == ""
  {
    if v.bloodGlucose != "" then "- Blood Glucose: " + v.bloodGlucose + " mg/dL" else ""
  }

  /** One bulleted line per symptom, or the no-symptoms text. */
  function SymptomsBlock(symptoms: seq<string>): string
  {
    if |symptoms| > 0 then Join(Bulleted(symptoms), "\n") else NoSymptomsText
  }

  const PromptIntro :=
    "\nAs a healthcare AI assistant, please analyze the following patient data and provide clinical insights:\n\n"
  const SymptomsHeading := "\n\nReported Symptoms:\n"

  /** Everything before the pain line: the introduction, then the patient details. */
  function PromptHead(p: Patient, v: Vitals): string
  {
    PromptIntro + PatientDetails(p, v)
  }

  /** The patient details and the main readings. */
  function PatientDetails(p: Patient, v: Vitals): string
  {
    "Patient Information:\n- Name: " + p.name + "\n- Age: " + NatToString(p.age)
    + "\n- Gender: " + p.gender + "\n- Current Condition: " + p.condition
    + "\n- Status: " + p.status + "\n\nCurrent Vital Signs:\n- Blood Pressure: " + v.bloodPressure
    + "\n- Heart Rate: " + v.heartRate + " bpm\n- Temperature: " + v.temperature
    + "°F\n- Oxygen Saturation: " + v.oxygenSaturation + "%\n- Respiratory Rate: "
    + v.respiratoryRate + " breaths/min\n"
  }

  /** Everything after the symptoms: observations, medications, allergies and the instructions. */
  function PromptClosing(p: Patient, observations: string): string
  {
    "\n\nHealthcare Worker Observations:\n" + (if observations != "" then observations else NoObservationsText)
    + "\n\nCurrent Medications:\n" + Join(Bulleted(p.medications), "\n")
    + "\n\nAllergies:\n" + Join(Bulleted(p.allergies), "\n")
    + "\n\n" + PromptInstructions + "\n      "
  }

  /** The symptoms section and everything after it. */
  function PromptTail(p: Patient, symptoms: seq<string>, observations: string): string
  {
    SymptomsHeading + SymptomsBlock(symptoms) + PromptClosing(p, observations)
  }

  /** The vital-sign lines from the pain line to the end of the glucose line. */
  function OptionalLines(v: Vitals): string
  {
    PainLine(v) + "\n" + GlucoseLine(v)
  }

  /** The analysis prompt of generateAIAnalysis. */
  function AnalysisPrompt(p: Patient, v: Vitals, symptoms: seq<string>, observations: string): (r: string)
    ensures StartsWith(r, PromptIntro)
    ensures Contains(r, PromptInstructions)
  {
    PromptFrame(p, v, symptoms, observations);
    PromptHead(p, v) + OptionalLines(v) + PromptTail(p, symptoms, observations)
  }

  /** The assembled prompt opens with the introduction and carries the instructions. */
  lemma PromptFrame(p: Patient, v: Vitals, symptoms: seq<string>, observations: string)
    ensures StartsWith(PromptHead(p, v) + OptionalLines(v) + PromptTail(p, symptoms, observations), PromptIntro)
    ensures Contains(PromptHead(p, v) + OptionalLines(v) + PromptTail(p, symptoms, observations), PromptInstructions)
  {
    var head, tail := PromptHead(p, v), PromptTail(p, symptoms, observations);
    assert head + OptionalLines(v) + tail == head + (OptionalLines(v) + tail);
    PromptStartsWithIntro(p, v, OptionalLines(v) + tail);
    PromptCarriesInstructions(p, observations);
    ContainsAfter(SymptomsHeading + SymptomsBlock(symptoms), PromptClosing(p, observations), PromptInstructions);
    ContainsAfter(head + OptionalLines(v), tail, PromptInstructions);
  }

  /** The patient details open with the introduction. */
  lemma PromptStartsWithIntro(p: Patient, v: Vitals, rest: string)
    ensures StartsWith(PromptHead(p, v) + rest, PromptIntro)
  {
    assert PromptHead(p, v) + rest == PromptIntro + (PatientDetails(p, v) + rest);
  }

  /** The closing part ends with the instructions to the model. */
  lemma PromptCarriesInstructions(p: Patient, observations: string)
    ensures Contains(PromptClosing(p, observations), PromptInstructions)
  {
    var before := "\n\nHealthcare Worker Observations:\n" + (if observations != "" then observations else NoObservationsText)
      + "\n\nCurrent Medications:\n" + Join(Bulleted(p.medications), "\n")
      + "\n\nAllergies:\n" + Join(Bulleted(p.allergies), "\n")
      + "\n\n";
    ContainsAt(PromptInstructions, PromptInstructions, 0);
    ContainsExtended(before, PromptInstructions, "\n      ", PromptInstructions);
  }

  /** The no-symptoms text stands in exactly when no symptom is listed. */
  lemma NoSymptomsIffEmpty(symptoms: seq<string>)
    ensures SymptomsBlock(symptoms) == NoSymptomsText <==> |symptoms| == 0
  {
    if |symptoms| > 0 {
      JoinStartsWithFirst(Bulleted(symptoms), "\n");
      assert SymptomsBlock(symptoms)[0] == '-';
    }
  }

  /** Every listed symptom reaches the prompt as its own bulleted line. */
  lemma PromptListsEachSymptom(p: Patient, v: Vitals, symptoms: seq<string>, observations: string, i: nat)
    requires i < |symptoms|
    ensures Contains(AnalysisPrompt(p, v, symptoms, observations), "- " + symptoms[i])
  {
    JoinContainsEach(Bulleted(symptoms), "\n", i);
    ContainsExtended(SymptomsHeading, SymptomsBlock(symptoms), PromptClosing(p, observations), "- " + symptoms[i]);
    ContainsAfter(PromptHead(p, v) + OptionalLines(v), PromptTail(p, symptoms, observations), "- " + symptoms[i]);
  }

  /** An entered pain level reaches the prompt on its own line. */
  lemma PromptReportsPain(p: Patient, v: Vitals, symptoms: seq<string>, observations: string)
    requires v.painLevel != ""
    ensures Contains(AnalysisPrompt(p, v, symptoms, observations), "- Pain Level: " + v.painLevel + "/10")
  {
    var line := PainLine(v);
    ContainsAt(line, line, 0);
    ContainsBefore(line + "\n", GlucoseLine(v), line) by {
      ContainsBefore(line, "\n", line);
    }
    ContainsExtended(PromptHead(p, v), OptionalLines(v), PromptTail(p, symptoms, observations), line);
  }

  /** An entered glucose reading reaches the prompt on its own line. */
  lemma PromptReportsGlucose(p: Patient, v: Vitals, symptoms: seq<string>, observations: string)
    requires v.bloodGlucose != ""
    ensures Contains(AnalysisPrompt(p, v, symptoms, observations), "- Blood Glucose: " + v.bloodGlucose + " mg/dL")
  {
    var line := GlucoseLine(v);
    ContainsAt(line, line, 0);
    ContainsAfter(PainLine(v) + "\n", line, line);
    ContainsExtended(PromptHead(p, v), OptionalLines(v), PromptTail(p, symptoms, observations), line);
  }

  /** Without pain or glucose entries only the newline between the two lines remains. */
  lemma NoOptionalLines(v: Vitals)
    requires v.painLevel == "" && v.bloodGlucose == ""
    ensures OptionalLines(v) == "\n"
  {
  }

  // ---------------------------------------------------------------------
  // the view
  // ---------------------------------------------------------------------

  /** The analysis request: the prompt as the only user message, with no history, image or voice. */
  method AskForAnalysis(prompt: string, api: GeminiService.ApiResult)
    returns (reply: string, request: seq<GeminiService.RequestMessage>)
    ensures |request| == 2
    ensures request[1] == GeminiService.RequestMessage(GeminiService.UserRole, GeminiService.Plain(prompt))
    ensures reply == GeminiService.ReplyOf(api, GeminiService.TechnicalDifficultiesText)
  {
    reply, request := GeminiService.GenerateResponse(prompt, [], false, false, api);
  }

  class Analysis {
    const patient: Patient
    var vitals: Vitals
    var symptoms: seq<string>
    var newSymptom: string
    var observations: string
    var aiAnalysis: string
    var isAnalyzing: bool
    var isSaving: bool
    var alerts: seq<string>

    ghost predicate Valid()
      reads this
    {
      CleanSymptoms(symptoms)
    }

    constructor(p: Patient)
      ensures Valid()
      ensures patient == p && vitals == InitialVitals(p)
      ensures symptoms == [] && newSymptom == "" && observations == "" && aiAnalysis == ""
      ensures !isAnalyzing && !isSaving && alerts == []
    {
      patient := p;
      vitals := InitialVitals(p);
      symptoms := [];
      newSymptom := "";
      observations := "";
      aiAnalysis := "";
      isAnalyzing := false;
      isSaving := false;
      alerts := [];
    }

    method HandleVitalChange(field: VitalField, value: string)
      requires Valid()
      modifies this`vitals
      ensures Valid() && vitals == SetVital(old(vitals), field, value)
    {
      vitals := SetVital(vitals, field, value);
    }

    method TypeSymptom(text: string)
      requires Valid()
      modifies this`newSymptom
      ensures Valid() && newSymptom == text
    {
      newSymptom := text;
    }

    method TypeObservations(text: string)
      requires Valid()
      modifies this`observations
      ensures Valid() && observations == text
    {
      observations := text;
    }

    /**
     * addSymptom: a non-blank entry not yet listed is appended trimmed and
     * the input cleared; otherwise nothing changes.
     */
    method AddSymptom() returns (added: bool)
      requires Valid()
      modifies this`symptoms, this`newSymptom
      ensures Valid()
      ensures added <==> !Blank(old(newSymptom)) && Trim(old(newSymptom)) !in old(symptoms)
      ensures added ==> symptoms == old(symptoms) + [Trim(old(newSymptom))] && newSymptom == ""
      ensures !added ==> symptoms == old(symptoms) && newSymptom == old(newSymptom)
    {
      var entry := Trim(newSymptom);
      if entry != "" && entry !in symptoms {
        AppendKeepsClean(symptoms, newSymptom);
        symptoms := symptoms + [entry];
        newSymptom := "";
        added := true;
      } else {
        added := false;
      }
    }

    /** handleKeyPress in the symptom box: Enter adds the symptom, any other key changes nothing. */
    method HandleKeyPress(key: string) returns (added: bool)
      requires Valid()
      modifies this`symptoms, this`newSymptom
      ensures Valid()
      ensures added <==> key == "Enter" && !Blank(old(newSymptom)) && Trim(old(newSymptom)) !in old(symptoms)
      ensures added ==> symptoms == old(symptoms) + [Trim(old(newSymptom))] && newSymptom == ""
      ensures !added ==> symptoms == old(symptoms) && newSymptom == old(newSymptom)
    {
      added := false;
      if key == "Enter" {
        added := AddSymptom();
      }
    }

    /** removeSymptom: every entry equal to the argument goes, the rest keep their order. */
    method RemoveSymptom(s: string)
      requires Valid()
      modifies this`symptoms
      ensures Valid() && symptoms == Without(old(symptoms), s)
      ensures s !in symptoms
      ensures s !in old(symptoms) ==> symptoms == old(symptoms)
      ensures forall k :: 0 <= k < |old(symptoms)| && old(symptoms)[k] == s ==>
        symptoms == old(symptoms)[..k] + old(symptoms)[k + 1..]
    {
      forall k | 0 <= k < |symptoms| && symptoms[k] == s
        ensures Without(symptoms, s) == symptoms[..k] + symptoms[k + 1..]
      {
        WithoutAt(symptoms, k);
      }
      if s !in symptoms {
        WithoutAbsent(symptoms, s);
      }
      WithoutKeepsClean(symptoms, s);
      symptoms := Without(symptoms, s);
    }

    /**
     * generateAIAnalysis: the prompt goes out as the only user message with
     * no history, and the reply (the fallback text when the service fails)
     * becomes the analysis.
     */
    method GenerateAiAnalysis(api: GeminiService.ApiResult) returns (request: seq<GeminiService.RequestMessage>)
      requires Valid()
      modifies this`aiAnalysis, this`isAnalyzing
      ensures Valid() && !isAnalyzing
      ensures |request| == 2
      ensures request[1] == GeminiService.RequestMessage(GeminiService.UserRole,
        GeminiService.Plain(AnalysisPrompt(patient, old(vitals), old(symptoms), old(observations))))
      ensures aiAnalysis == GeminiService.ReplyOf(api, GeminiService.TechnicalDifficultiesText)
      ensures !api.Completed? ==> aiAnalysis == GeminiService.TechnicalDifficultiesText
    {
      var prompt := AnalysisPrompt(patient, vitals, symptoms, observations);
      isAnalyzing := true;
      var reply;
      reply, request := AskForAnalysis(prompt, api);
      aiAnalysis := reply;
      isAnalyzing := false;
    }

    /** savePatientData: the button shows the saving state until the simulated save completes. */
    method SavePatientData()
      requires Valid()
      modifies this`isSaving
      ensures Valid() && isSaving
    {
      isSaving := true;
    }

    method SaveTimerFires()
      requires Valid() && isSaving
      modifies this`isSaving, this`alerts
      ensures Valid() && !isSaving && alerts == old(alerts) + [SavedText]
    {
      isSaving := false;
      alerts := alerts + [SavedText];
    }
  }
}
