/**
 * The health worker's ward overview: the patient search and status
 * filter, the colour assessment of vital signs, and the status counts on
 * the summary cards.
 */
module HealthWorkerDashboard {
  import opened Text

  datatype Status = Stable | Critical | Improving | Monitoring

  /**
   * A ward patient; only the fields the overview's logic reads are kept.
   * Vital readings are numbers with one decimal, held in tenths
   * (98.6 °F is 986).
   */
  datatype Patient = Patient(
    id: string, name: string, roomNumber: string, condition: string, status: Status,
    heartRate: int, temperature: int, oxygenSaturation: int)

  /** A reading as getVitalStatus receives it: a number (in tenths) or text. */
  datatype Reading = Number(tenths: int) | Text(text: string)

  /** The reading's colour: 'text-red-600', 'text-green-600' or 'text-gray-900'. */
  datatype Tone = Alarming | Normal | Unassessed

  const AllStatuses := "All"

  function StatusName(s: Status): string
  {
    match s
    case Stable => "Stable"
    case Critical => "Critical"
    case Improving => "Improving"
    case Monitoring => "Monitoring"
  }

  /** The search term is found in the name, the room number or the condition. */
  function MatchesSearch(p: Patient, term: string): (r: bool)
    ensures term == "" ==> r
  {
    IncludesEmpty(p.name);
    IncludesFolded(p.name, term) || IncludesFolded(p.roomNumber, term) || IncludesFolded(p.condition, term)
  }

  /** Deleting characters from the end of the search term never drops a patient. */
  lemma ShorterTermKeepsMatch(p: Patient, t: string, term: string)
    requires t <= term && MatchesSearch(p, term)
    ensures MatchesSearch(p, t)
  {
    if IncludesFolded(p.name, term) {
      IncludesFoldedPrefix(p.name, t, term);
    } else if IncludesFolded(p.roomNumber, term) {
      IncludesFoldedPrefix(p.roomNumber, t, term);
    } else {
      IncludesFoldedPrefix(p.condition, t, term);
    }
  }

  predicate Keeps(p: Patient, term: string, statusFilter: string)
  {
    MatchesSearch(p, term) && (statusFilter == AllStatuses || StatusName(p.status) == statusFilter)
  }

  /** filteredPatients: the kept patients, in their original order. */
  function FilteredPatients(ps: seq<Patient>, term: string, statusFilter: string): (r: seq<Patient>)
    ensures |r| <= |ps|
    ensures forall p :: p in r <==> p in ps && Keeps(p, term, statusFilter)
    decreases |ps|
  {
    if |ps| == 0 then []
    else
      var rest := FilteredPatients(ps[1..], term, statusFilter);
      assert forall x :: x in ps <==> x == ps[0] || x in ps[1..];
      if Keeps(ps[0], term, statusFilter) then [ps[0]] + rest else rest
  }

  /** The filter keeps the ward's order: it is taken patient by patient, so it distributes over `+`. */
  lemma {:induction false} FilteredPatientsAppend(a: seq<Patient>, b: seq<Patient>, term: string, statusFilter: string)
    ensures FilteredPatients(a + b, term, statusFilter)
         == FilteredPatients(a, term, statusFilter) + FilteredPatients(b, term, statusFilter)
    decreases |a|
  {
    if |a| > 0 {
      assert (a + b)[1..] == a[1..] + b;
      FilteredPatientsAppend(a[1..], b, term, statusFilter);
    } else {
      assert a + b == b;
    }
  }

  /** An empty search with the 'All' filter lists the whole ward, in order. */
  lemma {:induction false} EmptySearchListsAll(ps: seq<Patient>)
    ensures FilteredPatients(ps, "", AllStatuses) == ps
    decreases |ps|
  {
    if |ps| > 0 {
      EmptySearchListsAll(ps[1..]);
      assert [ps[0]] + ps[1..] == ps;
    }
  }

  /** mockPatients.filter(p => p.status === s).length. */
  function CountStatus(ps: seq<Patient>, s: Status): (r: nat)
    ensures r <= |ps|
    decreases |ps|
  {
    if |ps| == 0 then 0
    else (if ps[0].status == s then 1 else 0) + CountStatus(ps[1..], s)
  }

  /** A status card's number is the length of the list that status filter shows for an empty search. */
  lemma {:induction false} CountIsFilteredLength(ps: seq<Patient>, s: Status)
    ensures CountStatus(ps, s) == |FilteredPatients(ps, "", StatusName(s))|
    decreases |ps|
  {
    if |ps| > 0 {
      IncludesEmpty(ps[0].name);
      CountIsFilteredLength(ps[1..], s);
      assert ps[0].status == s <==> StatusName(ps[0].status) == StatusName(s);
    }
  }

  /** Every patient is counted under exactly one status, so the four counts add up to the ward size. */
  lemma {:induction false} StatusCountsCoverWard(ps: seq<Patient>)
    ensures CountStatus(ps, Critical) + CountStatus(ps, Stable) + CountStatus(ps, Improving)
      + CountStatus(ps, Monitoring) == |ps|
    decreases |ps|
  {
    if |ps| > 0 {
      StatusCountsCoverWard(ps[1..]);
    }
  }

  /**
   * getVitalStatus: heart rate outside 60–100, temperature above 100.4 and
   * oxygen saturation below 95 are alarming; other numbers are normal; text
   * and any other kind of reading are not assessed.
   */
  function VitalStatus(kind: string, value: Reading): (r: Tone)
    ensures value.Text? ==> r == Unassessed
    ensures kind != "heartRate" && kind != "temperature" && kind != "oxygenSaturation" ==> r == Unassessed
    ensures value.Number? && kind == "heartRate" ==> (r == Alarming <==> value.tenths < 600 || value.tenths > 1000)
    ensures value.Number? && kind == "temperature" ==> (r == Alarming <==> value.tenths > 1004)
    ensures value.Number? && kind == "oxygenSaturation" ==> (r == Alarming <==> value.tenths < 950)
    ensures r == Unassessed <==> value.Text? || (kind != "heartRate" && kind != "temperature" && kind != "oxygenSaturation")
  {
    if value.Number? then
      if kind == "heartRate" then
        if value.tenths < 600 || value.tenths > 1000 then Alarming else Normal
      else if kind == "temperature" then
        if value.tenths > 1004 then Alarming else Normal
      else if kind == "oxygenSaturation" then
        if value.tenths < 950 then Alarming else Normal
      else Unassessed
    else Unassessed
  }

  /** A higher temperature is never less alarming, and a higher saturation never more. */
  lemma TemperatureAndOxygenMonotone(a: int, b: int)
    requires a <= b
    ensures VitalStatus("temperature", Number(a)) == Alarming ==> VitalStatus("temperature", Number(b)) == Alarming
    ensures VitalStatus("oxygenSaturation", Number(b)) == Alarming ==> VitalStatus("oxygenSaturation", Number(a)) == Alarming
  {
  }

  /** The three readings shown on a patient's card. */
  function CardTones(p: Patient): (r: (Tone, Tone, Tone))
    ensures r.0 != Unassessed && r.1 != Unassessed && r.2 != Unassessed
    ensures r.0 == Alarming <==> p.heartRate < 600 || p.heartRate > 1000
  {
    (VitalStatus("heartRate", Number(p.heartRate)),
     VitalStatus("temperature", Number(p.temperature)),
     VitalStatus("oxygenSaturation", Number(p.oxygenSaturation)))
  }
}
