/**
 * The patient's prescription history page: the prescriptions of every visit record, flattened
 * into one list, each entry tagged with its visit's date, doctor and diagnosis.
 */
module PrescriptionHistory {
  import opened Common
  import opened Seqs

  /** A prescription entry as stored on a record; the page copies it unchanged. */
  datatype Entry = Entry(medication: string, dosage: string, duration: Option<string>, instructions: Option<string>)

  /**
   * A visit record as the page reads it: the visit date, the populated doctor's name, the
   * diagnosis and the `prescriptions` list, any of which may be absent.
   */
  datatype VisitRecord = VisitRecord(
    visitDate: Option<int>,
    doctorName: Option<string>,
    diagnosis: Option<string>,
    prescriptions: Option<seq<Entry>>)

  /** One row of the page: the entry's own fields plus its visit's date, doctor and diagnosis. */
  datatype Row = Row(entry: Entry, visitDate: Option<int>, doctor: Option<string>, diagnosis: Option<string>)

  function Tag(r: VisitRecord, e: Entry): Row
  {
    Row(e, r.visitDate, r.doctorName, r.diagnosis)
  }

  /** The entries a record contributes: none when its list is absent or empty. */
  function EntriesOf(r: VisitRecord): seq<Entry>
  {
    if r.prescriptions.Some? then r.prescriptions.value else []
  }

  function EntryCount(r: VisitRecord): int
  {
    |EntriesOf(r)|
  }

  /** The rows of one record, in the order of its entries. */
  function RowsOf(r: VisitRecord): (rows: seq<Row>)
    ensures |rows| == EntryCount(r)
    ensures forall j :: 0 <= j < |rows| ==> rows[j] == Tag(r, EntriesOf(r)[j])
  {
    var es := EntriesOf(r);
    seq(|es|, j requires 0 <= j < |es| => Tag(r, es[j]))
  }

  /** The flattened list, specified record by record: the rows of the earlier records, then the last one's. */
  function Flatten(records: seq<VisitRecord>): seq<Row>
  {
    if records == [] then [] else Flatten(records[..|records| - 1]) + RowsOf(records[|records| - 1])
  }

  /**
   * `loadPrescriptions`: the outer loop visits the records in order and, for a record with a
   * non-empty list, pushes its rows.
   */
  method LoadPrescriptions(records: seq<VisitRecord>) returns (all: seq<Row>)
    ensures all == Flatten(records)
  {
    all := [];
    var i := 0;
    while i < |records|
      invariant 0 <= i <= |records|
      invariant all == Flatten(records[..i])
    {
      var record := records[i];
      if record.prescriptions.Some? && |record.prescriptions.value| > 0 {
        all := PushRows(all, record);
      }
      assert records[..i + 1][..i] == records[..i];
      i := i + 1;
    }
    assert records[..i] == records;
  }

  /** The inner loop of `loadPrescriptions`: one tagged row per entry of the record, pushed in order. */
  method PushRows(all: seq<Row>, record: VisitRecord) returns (pushed: seq<Row>)
    ensures pushed == all + RowsOf(record)
  {
    var entries := EntriesOf(record);
    pushed := all;
    var j := 0;
    while j < |entries|
      invariant 0 <= j <= |entries|
      invariant pushed == all + RowsOf(record)[..j]
    {
      pushed := pushed + [Tag(record, entries[j])];
      assert RowsOf(record)[..j + 1] == RowsOf(record)[..j] + [Tag(record, entries[j])];
      j := j + 1;
    }
    assert RowsOf(record)[..j] == RowsOf(record);
  }

  /** The page shows as many rows as there are entries across all records. */
  lemma {:induction false} FlattenLength(records: seq<VisitRecord>)
    ensures |Flatten(records)| == Sum(records, EntryCount)
  {
    if records != [] {
      FlattenLength(records[..|records| - 1]);
    }
  }

  /** The rows of the earlier records stay put when more records follow. */
  lemma {:induction false} FlattenPrefix(records: seq<VisitRecord>, n: nat)
    requires n <= |records|
    ensures |Flatten(records[..n])| <= |Flatten(records)|
    ensures Flatten(records[..n]) == Flatten(records)[..|Flatten(records[..n])|]
  {
    if n < |records| {
      var front := records[..|records| - 1];
      FlattenPrefix(front, n);
      assert front[..n] == records[..n];
    } else {
      assert records[..n] == records;
    }
  }

  /**
   * Rows come record by record, then entry by entry: entry `j` of record `i` sits right after the
   * rows of the records before it (as many as their entries, by `FlattenLength`) and carries
   * record `i`'s date, doctor and diagnosis.
   */
  lemma {:induction false} FlattenPosition(records: seq<VisitRecord>, i: nat, j: nat)
    requires i < |records| && j < EntryCount(records[i])
    ensures |Flatten(records[..i])| + j < |Flatten(records)|
    ensures Flatten(records)[|Flatten(records[..i])| + j] == Tag(records[i], EntriesOf(records[i])[j])
  {
    var init := records[..|records| - 1];
    if i == |records| - 1 {
      FlattenLastRows(records, j);
    } else {
      FlattenPosition(init, i, j);
      assert init[..i] == records[..i] && init[i] == records[i];
      FlattenEarlierRows(records, |Flatten(records[..i])| + j);
    }
  }

  /** The rows of the records before the last keep their places when the last record's rows follow. */
  lemma FlattenEarlierRows(records: seq<VisitRecord>, k: nat)
    requires records != [] && k < |Flatten(records[..|records| - 1])|
    ensures k < |Flatten(records)| && Flatten(records)[k] == Flatten(records[..|records| - 1])[k]
  {
  }

  /** The last record's rows come right after all the others'. */
  lemma FlattenLastRows(records: seq<VisitRecord>, j: nat)
    requires records != [] && j < EntryCount(records[|records| - 1])
    ensures var before := Flatten(records[..|records| - 1]);
      |before| + j < |Flatten(records)|
      && Flatten(records)[|before| + j] == Tag(records[|records| - 1], EntriesOf(records[|records| - 1])[j])
  {
  }

  /** A record whose list is absent or empty contributes no row. */
  lemma RecordWithoutEntriesAddsNothing(records: seq<VisitRecord>, r: VisitRecord)
    requires r.prescriptions.None? || r.prescriptions == Some([])
    ensures Flatten(records + [r]) == Flatten(records)
  {
    assert (records + [r])[..|records|] == records;
  }
}
