/** The manual barcode form of `src/components/ScannerInterface.tsx`: the
    text field, the guard on its submit handler, and the condition that
    disables its Add button. */
module Scanner {
  import opened Wrappers
  import opened Strings

  /** What a submit does: the barcode handed to `onProductScanned`, if
      any, and the text left in the field afterwards. */
  datatype SubmitOutcome = SubmitOutcome(scanned: Option<string>, input: string)

  /** `handleManualSubmit`: a non-blank entry is passed on trimmed and the
      field is cleared; a blank one does nothing. */
  function ManualSubmit(input: string): (r: SubmitOutcome)
    ensures r.scanned.Some? <==> !AllSpace(input)
    ensures r.scanned.Some? ==> r.scanned.value == Trim(input) && r.scanned.value != [] && r.input == []
    ensures r.scanned.None? ==> r.input == input
  {
    TrimEmptyIff(input);
    var t := Trim(input);
    if t != [] then SubmitOutcome(Some(t), []) else SubmitOutcome(None, input)
  }

  /** `disabled={!manualBarcode.trim()}` on the Add button. */
  function SubmitDisabled(input: string): (r: bool)
    ensures r <==> AllSpace(input)
  {
    TrimEmptyIff(input);
    Trim(input) == []
  }

  /** The button is enabled exactly when submitting would scan, so an
      enabled button always produces a scan. */
  lemma EnabledIffScans(input: string)
    ensures !SubmitDisabled(input) <==> ManualSubmit(input).scanned.Some?
  {
  }

  /** What is scanned is the entry without its surrounding whitespace:
      padding a non-empty trimmed barcode with whitespace on either side
      scans the bare barcode. */
  lemma PaddedEntryScansBarcode(before: string, barcode: string, after: string)
    requires AllSpace(before) && AllSpace(after)
    requires IsTrimmed(barcode) && barcode != []
    ensures ManualSubmit(before + barcode + after).scanned == Some(barcode)
  {
    TrimPadded(before, barcode, after);
  }

  /** A non-empty trimmed entry is scanned as it is. */
  lemma TrimmedEntryScansItself(entry: string)
    requires IsTrimmed(entry) && entry != []
    ensures ManualSubmit(entry).scanned == Some(entry)
  {
    TrimPadded([], entry, []);
    assert [] + entry + [] == entry;
  }

  /** Submitting the text that was scanned scans it again unchanged. */
  lemma ResubmitScansSame(input: string)
    requires ManualSubmit(input).scanned.Some?
    ensures ManualSubmit(ManualSubmit(input).scanned.value).scanned == ManualSubmit(input).scanned
  {
    TrimIdempotent(input);
  }

  /** `simulateBarcodeScan` picks one of these demo barcodes at random. */
  const MockBarcodes: seq<string> :=
    ["012345678901", "123456789012", "234567890123", "345678901234", "456789012345"]

  /** The demo barcode at a position; the random choice of the position is
      the caller's. */
  function SimulatedScan(choice: nat): (r: string)
    requires choice < |MockBarcodes|
    ensures r in MockBarcodes
  {
    MockBarcodes[choice]
  }
}
