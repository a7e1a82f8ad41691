/**
 * The health worker's medical-records browser: the search over patient,
 * title and author combined with the type, status and priority filters,
 * and the badges on each record.
 */
module MedicalRecordsInterface {
  import opened Wrappers
  import opened Text

  /** A record; type, status and priority are the labels the filters compare against. */
  datatype MedicalRecord = MedicalRecord(
    id: string, patientName: string, kind: string, title: string, recordedBy: string,
    status: string, priority: string, attachments: Option<seq<string>>)

  /** What the toolbar holds: the search text and the three drop-down filters. */
  datatype Criteria = Criteria(term: string, kind: string, status: string, priority: string)

  const AllLabel := "All"
  const NormalPriority := "Normal"
  const ShowEverything := Criteria("", AllLabel, AllLabel, AllLabel)

  /** A drop-down filter lets a value through when it is 'All' or names that value. */
  predicate Allows(filter: string, value: string)
  {
    filter == AllLabel || value == filter
  }

  predicate MatchesSearch(r: MedicalRecord, term: string)
  {
    IncludesFolded(r.patientName, term) || IncludesFolded(r.title, term) || IncludesFolded(r.recordedBy, term)
  }

  predicate Keeps(r: MedicalRecord, c: Criteria)
  {
    MatchesSearch(r, c.term) && Allows(c.kind, r.kind) && Allows(c.status, r.status)
    && Allows(c.priority, r.priority)
  }

  /** filteredRecords: the records every criterion keeps, in their original order. */
  function FilteredRecords(rs: seq<MedicalRecord>, c: Criteria): (r: seq<MedicalRecord>)
    ensures |r| <= |rs|
    ensures forall x :: x in r <==> x in rs && Keeps(x, c)
    decreases |rs|
  {
    if |rs| == 0 then []
    else
      var rest := FilteredRecords(rs[1..], c);
      assert forall x :: x in rs <==> x == rs[0] || x in rs[1..];
      if Keeps(rs[0], c) then [rs[0]] + rest else rest
  }

  /** The filter keeps the records' order: it is taken record by record, so it distributes over `+`. */
  lemma {:induction false} FilteredRecordsAppend(a: seq<MedicalRecord>, b: seq<MedicalRecord>, c: Criteria)
    ensures FilteredRecords(a + b, c) == FilteredRecords(a, c) + FilteredRecords(b, c)
    decreases |a|
  {
    if |a| > 0 {
      assert (a + b)[1..] == a[1..] + b;
      FilteredRecordsAppend(a[1..], b, c);
    } else {
      assert a + b == b;
    }
  }

  /** An empty search with every filter at 'All' keeps every record, in order. */
  lemma {:induction false} EverythingShownInitially(rs: seq<MedicalRecord>)
    ensures FilteredRecords(rs, ShowEverything) == rs
    decreases |rs|
  {
    if |rs| > 0 {
      IncludesEmpty(rs[0].patientName);
      EverythingShownInitially(rs[1..]);
      assert [rs[0]] + rs[1..] == rs;
    }
  }

  /**
   * `narrow` asks for at least as much as `wide`: its search text extends
   * the wider one, and each of its filters is either the same or narrows
   * an 'All'.
   */
  predicate Narrows(wide: Criteria, narrow: Criteria)
  {
    wide.term <= narrow.term
    && (wide.kind == AllLabel || wide.kind == narrow.kind)
    && (wide.status == AllLabel || wide.status == narrow.status)
    && (wide.priority == AllLabel || wide.priority == narrow.priority)
  }

  lemma NarrowerKeepsLess(wide: Criteria, narrow: Criteria, r: MedicalRecord)
    requires Narrows(wide, narrow) && Keeps(r, narrow)
    ensures Keeps(r, wide)
  {
    if IncludesFolded(r.patientName, narrow.term) {
      IncludesFoldedPrefix(r.patientName, wide.term, narrow.term);
    } else if IncludesFolded(r.title, narrow.term) {
      IncludesFoldedPrefix(r.title, wide.term, narrow.term);
    } else {
      IncludesFoldedPrefix(r.recordedBy, wide.term, narrow.term);
    }
  }

  /**
   * Narrowing the criteria never adds a record: the narrower list is the
   * wider list filtered again, so it is a sub-list and never longer.
   */
  lemma {:induction false} NarrowingRefines(rs: seq<MedicalRecord>, wide: Criteria, narrow: Criteria)
    requires Narrows(wide, narrow)
    ensures FilteredRecords(FilteredRecords(rs, wide), narrow) == FilteredRecords(rs, narrow)
    ensures |FilteredRecords(rs, narrow)| <= |FilteredRecords(rs, wide)|
    decreases |rs|
  {
    if |rs| > 0 {
      NarrowingRefines(rs[1..], wide, narrow);
      if Keeps(rs[0], narrow) {
        NarrowerKeepsLess(wide, narrow, rs[0]);
      }
    }
  }

  /** The priority badge is shown only for records whose priority is not 'Normal'. */
  predicate ShowsPriorityBadge(r: MedicalRecord)
  {
    r.priority != NormalPriority
  }

  /**
   * Under a priority filter other than 'All', the listed records either all
   * carry the priority badge or, for the 'Normal' filter, none does.
   */
  lemma PriorityFilterDecidesBadge(rs: seq<MedicalRecord>, c: Criteria)
    requires c.priority != AllLabel
    ensures forall x :: x in FilteredRecords(rs, c) ==> (ShowsPriorityBadge(x) <==> c.priority != NormalPriority)
  {
  }

  /** The attachment count line: shown with the count only when there are attachments. */
  function AttachmentLine(r: MedicalRecord): (n: Option<nat>)
    ensures n.Some? <==> r.attachments.Some? && |r.attachments.value| > 0
    ensures n.Some? ==> n.value == |r.attachments.value| && n.value > 0
  {
    if r.attachments.Some? && |r.attachments.value| > 0 then Some(|r.attachments.value|) else None
  }
}
