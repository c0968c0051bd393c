/**
 * extract_data.py: the OCR_SCAN object that holds the stored expense list, turns
 * an OCR reply into an expense record and, for every file in the images folder
 * that is not yet recorded, scans it and appends the record. The OCR service, the
 * folder listing and the clock are parameters.
 */
module ExtractData {
  import opened Wrappers
  import opened Records
  import opened Sequences

  const ImagesDir: string := "images"

  /** One receipt of an OCR reply; a field is None when the reply lacks it. */
  datatype RawReceipt = RawReceipt(
    merchantName: Option<string>,
    date: Option<string>,
    time: Option<string>,
    total: Option<Money>,
    subtotal: Option<Money>,
    tax: Option<Money>,
    items: Option<seq<Json>>)

  /** An OCR reply body; `receipts` is None when the key is missing. */
  datatype ScanReply = ScanReply(receipts: Option<seq<RawReceipt>>)

  /** What datetime.now() gives for the record id and for scanned_at. */
  datatype Stamp = Stamp(id: string, scannedAt: string)

  /** os.path.join(dir, file) for a bare file name. */
  function JoinPath(dir: string, file: string): string {
    dir + "/" + file
  }

  /** The guard `not result or "receipts" not in result or len(result["receipts"]) == 0`, negated. */
  predicate Usable(reply: Option<ScanReply>) {
    reply.Some? && reply.value.receipts.Some? && |reply.value.receipts.value| > 0
  }

  /**
   * extract_fields: the record for the first receipt of the reply, filed under the
   * bare file name; a missing merchant is "Unknown", missing items are [], any
   * other missing field is null.
   */
  function ExtractFields(reply: ScanReply, file: string, stamp: Stamp): (r: Expense)
    requires reply.receipts.Some? && |reply.receipts.value| > 0
    ensures var first := reply.receipts.value[0];
      && r.imageFile == file
      && r.merchant == Some(first.merchantName.GetOr("Unknown"))
      && r.items == first.items.GetOr([])
      && r.total == first.total && r.subtotal == first.subtotal && r.tax == first.tax
      && r.date == first.date && r.time == first.time
      && r.id == stamp.id && r.scannedAt == stamp.scannedAt
  {
    var receipt := reply.receipts.value[0];
    Expense(
      id := stamp.id,
      imageFile := file,
      merchant := Some(receipt.merchantName.GetOr("Unknown")),
      date := receipt.date,
      time := receipt.time,
      total := receipt.total,
      subtotal := receipt.subtotal,
      tax := receipt.tax,
      items := receipt.items.GetOr([]),
      scannedAt := stamp.scannedAt)
  }

  /** Only the first receipt of a reply is read. */
  lemma ExtractReadsFirstOnly(reply: ScanReply, file: string, stamp: Stamp)
    requires reply.receipts.Some? && |reply.receipts.value| > 0
    ensures ExtractFields(reply, file, stamp) == ExtractFields(ScanReply(Some([reply.receipts.value[0]])), file, stamp)
  {
  }

  /** `any(r["image_file"] == file for r in self.expenses)` */
  predicate Recorded(expenses: seq<Expense>, file: string) {
    exists i :: 0 <= i < |expenses| && expenses[i].imageFile == file
  }

  /**
   * One iteration of process_all: a recorded file is skipped without scanning;
   * otherwise the file is scanned under its joined path and, if the reply holds a
   * receipt, one record for the bare file name is appended.
   */
  function Step(expenses: seq<Expense>, file: string, scan: string -> Option<ScanReply>, clock: string -> Stamp): (r: seq<Expense>)
    ensures Recorded(expenses, file) ==> r == expenses
    ensures !Usable(scan(JoinPath(ImagesDir, file))) ==> r == expenses
    ensures !Recorded(expenses, file) && Usable(scan(JoinPath(ImagesDir, file))) ==>
      r == expenses + [ExtractFields(scan(JoinPath(ImagesDir, file)).value, file, clock(file))]
    ensures r != expenses ==>
      !Recorded(expenses, file) && Usable(scan(JoinPath(ImagesDir, file))) && r[|expenses|].imageFile == file
  {
    if Recorded(expenses, file) then expenses
    else
      var result := scan(JoinPath(ImagesDir, file));
      if !Usable(result) then expenses
      else expenses + [ExtractFields(result.value, file, clock(file))]
  }

  /** The list after process_all has handled `files`, in listing order. */
  function Ingest(expenses: seq<Expense>, files: seq<string>, scan: string -> Option<ScanReply>, clock: string -> Stamp): seq<Expense> {
    if files == [] then expenses
    else Step(Ingest(expenses, files[..|files| - 1], scan, clock), files[|files| - 1], scan, clock)
  }

  function ImageFiles(expenses: seq<Expense>): (r: seq<string>)
    ensures |r| == |expenses|
    ensures forall i :: 0 <= i < |expenses| ==> r[i] == expenses[i].imageFile
  {
    seq(|expenses|, i requires 0 <= i < |expenses| => expenses[i].imageFile)
  }

  /** process_all only appends: the earlier records stay, in order, as a prefix, and at most one record is added per listed file. */
  lemma {:induction false} IngestGrows(expenses: seq<Expense>, files: seq<string>, scan: string -> Option<ScanReply>, clock: string -> Stamp)
    ensures expenses <= Ingest(expenses, files, scan, clock)
    ensures |Ingest(expenses, files, scan, clock)| <= |expenses| + |files|
  {
    if files != [] {
      IngestGrows(expenses, files[..|files| - 1], scan, clock);
    }
  }

  /**
   * The appended records are named after listed files, in listing order, at most
   * one per file.
   */
  lemma {:induction false} IngestAddsListedFiles(expenses: seq<Expense>, files: seq<string>, scan: string -> Option<ScanReply>, clock: string -> Stamp)
    ensures |expenses| <= |Ingest(expenses, files, scan, clock)|
    ensures Subsequence(ImageFiles(Ingest(expenses, files, scan, clock)[|expenses|..]), files)
  {
    IngestGrows(expenses, files, scan, clock);
    if files != [] {
      var init, file := files[..|files| - 1], files[|files| - 1];
      var before := Ingest(expenses, init, scan, clock);
      var r := Step(before, file, scan, clock);
      IngestAddsListedFiles(expenses, init, scan, clock);
      IngestGrows(expenses, init, scan, clock);
      var added := ImageFiles(before[|expenses|..]);
      assert files == init + [file];
      if r == before {
        SubsequenceExtend(added, init, file);
      } else {
        assert r[|expenses|..] == before[|expenses|..] + [r[|before|]];
        assert ImageFiles(r[|expenses|..]) == added + [file];
        SubsequenceAppend(added, init, file);
      }
    }
  }

  /**
   * Every listed file whose scan holds a receipt ends up recorded, and so does
   * every file recorded before.
   */
  lemma {:induction false} IngestRecordsScanned(expenses: seq<Expense>, files: seq<string>, scan: string -> Option<ScanReply>, clock: string -> Stamp)
    ensures forall f :: f in files && Usable(scan(JoinPath(ImagesDir, f))) ==> Recorded(Ingest(expenses, files, scan, clock), f)
    ensures forall f :: Recorded(expenses, f) ==> Recorded(Ingest(expenses, files, scan, clock), f)
  {
    if files != [] {
      var init, file := files[..|files| - 1], files[|files| - 1];
      var before := Ingest(expenses, init, scan, clock);
      var after := Ingest(expenses, files, scan, clock);
      IngestRecordsScanned(expenses, init, scan, clock);
      assert before <= after;
      forall f | Recorded(before, f) ensures Recorded(after, f) {
        var i :| 0 <= i < |before| && before[i].imageFile == f;
        assert after[i] == before[i];
      }
      if !Recorded(before, file) && Usable(scan(JoinPath(ImagesDir, file))) {
        assert after[|before|].imageFile == file;
      }
      assert files == init + [file];
    }
  }

  /** Distinct image names stay distinct: a file already recorded is never appended again. */
  lemma {:induction false} IngestKeepsUnique(expenses: seq<Expense>, files: seq<string>, scan: string -> Option<ScanReply>, clock: string -> Stamp)
    requires UniqueImages(expenses)
    ensures UniqueImages(Ingest(expenses, files, scan, clock))
  {
    if files != [] {
      var init, file := files[..|files| - 1], files[|files| - 1];
      var before := Ingest(expenses, init, scan, clock);
      IngestKeepsUnique(expenses, init, scan, clock);
      var r := Ingest(expenses, files, scan, clock);
      if r != before {
        forall i, j | 0 <= i < j < |r| ensures r[i].imageFile != r[j].imageFile {
          if j == |before| {
            assert r[i] == before[i];
          }
        }
      }
    }
  }

  /** The OCR_SCAN object: its stored expense list. */
  class OcrScanner {
    var expenses: seq<Expense>

    /** `__init__`: the stored list when outputs/expenses.json exists, else empty. */
    constructor (stored: Option<seq<Expense>>)
      ensures expenses == stored.GetOr([])
    {
      expenses := stored.GetOr([]);
    }

    /** process_all over the listed files. */
    method ProcessAll(files: seq<string>, scan: string -> Option<ScanReply>, clock: string -> Stamp)
      modifies this
      ensures expenses == Ingest(old(expenses), files, scan, clock)
      ensures old(expenses) <= expenses
      ensures |expenses| <= |old(expenses)| + |files|
      ensures Subsequence(ImageFiles(expenses[|old(expenses)|..]), files)
      ensures UniqueImages(old(expenses)) ==> UniqueImages(expenses)
      ensures forall f :: f in files && Usable(scan(JoinPath(ImagesDir, f))) ==> Recorded(expenses, f)
      ensures forall f :: Recorded(old(expenses), f) ==> Recorded(expenses, f)
    {
      var i := 0;
      while i < |files|
        invariant 0 <= i <= |files|
        invariant expenses == Ingest(old(expenses), files[..i], scan, clock)
      {
        var file := files[i];
        assert files[..i + 1][..i] == files[..i];
        if exists k :: 0 <= k < |expenses| && expenses[k].imageFile == file {
          i := i + 1;
          continue;
        }
        var fullPath := JoinPath(ImagesDir, file);
        var result := scan(fullPath);
        if result.None? || result.value.receipts.None? || |result.value.receipts.value| == 0 {
          i := i + 1;
          continue;
        }
        var structured := ExtractFields(result.value, file, clock(file));
        expenses := expenses + [structured];
        i := i + 1;
      }
      assert files[..i] == files;
      IngestGrows(old(expenses), files, scan, clock);
      IngestAddsListedFiles(old(expenses), files, scan, clock);
      IngestRecordsScanned(old(expenses), files, scan, clock);
      if UniqueImages(old(expenses)) {
        IngestKeepsUnique(old(expenses), files, scan, clock);
      }
    }

    /** show_summary's total: the truthy totals summed, which is the total spent. */
    function SummaryTotal(): (r: Money)
      reads this
      ensures r == TotalSpent(expenses)
    {
      TruthyTotalAgrees(expenses);
      TruthyTotal(expenses)
    }
  }
}
