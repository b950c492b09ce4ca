/**
 * Scan-sheet records and the helpers that read them. The remote answers
 * HTTP 200 even when an operation failed and reports the failure inside the
 * items of `data`; each helper below decodes one such buried report.
 */
module ScanSheetTypes {
  import opened Js

  /** `ScanSheetData` (from getScanSheet); the helpers read only `Count`. */
  datatype ScanSheetData = ScanSheetData(ref: string, number: string, dateTime: string, count: string)

  /** `ScanSheetListItem` (from getScanSheetList): `Printed` is "1" or "0". */
  datatype ScanSheetListItem = ScanSheetListItem(ref: string, number: string, dateTime: string, printed: string)

  /** `InsertDocumentsErrorItem`. */
  datatype InsertError = InsertError(ref: string, error: string)

  /** `InsertDocumentsNestedData`; `errors` is `None` when the key is missing or null. */
  datatype InsertDocumentsNestedData = InsertDocumentsNestedData(errors: Option<seq<InsertError>>)

  /**
   * `InsertDocumentsData`: top-level `Errors` (`None` when missing or null) and
   * the nested `Data` object (`None` for `null`).
   */
  datatype InsertDocumentsData = InsertDocumentsData(
    ref: string,
    number: string,
    errors: Option<seq<string>>,
    data: Option<InsertDocumentsNestedData>)

  /** A JSON string field that may also be missing (`undefined`) or `null`. */
  datatype StringField = Absent | NullString | Text(s: string)

  /** `DeleteScanSheetData`. */
  datatype DeleteScanSheetData = DeleteScanSheetData(ref: string, number: string, error: StringField)

  /** A JSON array field that may also be missing (`undefined`) or `null`. */
  datatype ArrayField = Missing | NullArray | Items(items: seq<string>)

  /** `RemoveDocumentsResultData`. */
  datatype RemoveDocumentsResultData = RemoveDocumentsResultData(errors: ArrayField)

  /** `RemoveDocumentsData`; `documentRefs` is `None` when the key is missing. */
  datatype RemoveDocumentsData = RemoveDocumentsData(documentRefs: Option<RemoveDocumentsResultData>)

  // ---------------------------------------------------------------------------

  /** `isScanSheetEmpty`: `Count` is NaN under `parseInt(Count, 10)`, or zero. */
  function IsScanSheetEmpty(scanSheet: ScanSheetData): (r: bool)
    ensures r <==> ParseInt(scanSheet.count).None? || ParseInt(scanSheet.count) == Some(0)
  {
    var count := ParseInt(scanSheet.count);
    count.None? || count.value == 0
  }

  /** A sheet whose count the remote wrote as a decimal number is empty exactly when that number is 0. */
  lemma EmptyIffCountZero(scanSheet: ScanSheetData, n: int)
    requires scanSheet.count == IntToDecimal(n)
    ensures IsScanSheetEmpty(scanSheet) <==> n == 0
  {
    ParseIntDecimal(n);
  }

  /** Every character of `digits` is '0' (vacuously so when there are none). */
  predicate AllZeros(digits: string) {
    forall i :: 0 <= i < |digits| ==> digits[i] == '0'
  }

  /**
   * The count reads as zero exactly when, after white space and a sign, the
   * leading digits are all '0'; it reads as NaN when there are none.
   */
  lemma EmptyIffNoNonZeroDigit(scanSheet: ScanSheetData)
    ensures IsScanSheetEmpty(scanSheet) <==> AllZeros(DigitPrefix(Unsigned(TrimStart(scanSheet.count))))
  {
    var digits := DigitPrefix(Unsigned(TrimStart(scanSheet.count)));
    DigitsValueZero(digits);
    var count := ParseInt(scanSheet.count);
    if digits != [] {
      assert count.Some? && (count.value == 0 <==> DigitsValue(digits) == 0);
    }
  }

  /** `isScanSheetPrinted`: the print flag is exactly "1". */
  function IsScanSheetPrinted(scanSheet: ScanSheetListItem): (r: bool)
    ensures r <==> scanSheet.printed == "1"
  {
    scanSheet.printed == "1"
  }

  /** `hasInsertErrors`: a non-empty top-level `Errors`, or non-empty `Data.Errors`. */
  function HasInsertErrors(data: InsertDocumentsData): (r: bool)
    ensures !r <==> NoInsertErrorReported(data)
  {
    if data.errors.Some? && |data.errors.value| > 0 then true
    else if data.data.Some? && data.data.value.errors.Some? && |data.data.value.errors.value| > 0 then true
    else false
  }

  /** Every error list the insertion reply can carry is absent, null or empty. */
  predicate NoInsertErrorReported(data: InsertDocumentsData) {
    && (data.errors.None? || data.errors.value == [])
    && (data.data.None? || data.data.value.errors.None? || data.data.value.errors.value == [])
  }

  /**
   * `hasDeleteError`: `Error` is neither `undefined` nor the empty string.
   * A `null` error is therefore reported as an error.
   */
  function HasDeleteError(data: DeleteScanSheetData): (r: bool)
    ensures r <==> data.error.NullString? || (data.error.Text? && |data.error.s| > 0)
  {
    data.error != Absent && data.error != Text("")
  }

  /**
   * `hasRemoveErrors` as written: `!DocumentRefs ? false : Errors && Errors.length > 0`.
   * The `&&` hands back `Errors` itself when it is missing or null, so the
   * result is `undefined` or `null` rather than a boolean.
   */
  function HasRemoveErrorsAsWritten(data: RemoveDocumentsData): (r: Value)
    ensures data.documentRefs.None? ==> r == Bool(false)
    ensures r.Bool? || r.Undefined? || r.Null?
  {
    match data.documentRefs
    case None => Bool(false)
    case Some(result) =>
      match result.errors
      case Missing => Undefined
      case NullArray => Null
      case Items(items) => Bool(|items| > 0)
  }

  /** The input that shows it: `{ DocumentRefs: { Success: [] } }` yields `undefined`. */
  lemma RemoveErrorsNotBoolean()
    ensures HasRemoveErrorsAsWritten(RemoveDocumentsData(Some(RemoveDocumentsResultData(Missing)))) == Undefined
    ensures HasRemoveErrorsAsWritten(RemoveDocumentsData(Some(RemoveDocumentsResultData(NullArray)))) == Null
  {
  }

  /** `hasRemoveErrors` as its `boolean` signature promises. */
  function HasRemoveErrors(data: RemoveDocumentsData): (r: bool)
    ensures data.documentRefs.None? ==> !r
    ensures r <==> data.documentRefs.Some? && data.documentRefs.value.errors.Items?
                   && |data.documentRefs.value.errors.items| > 0
  {
    data.documentRefs.Some? && data.documentRefs.value.errors.Items? && |data.documentRefs.value.errors.items| > 0
  }

  /**
   * The corrected helper agrees with the written one in every boolean context,
   * and equals it wherever the written one does produce a boolean.
   */
  lemma RemoveErrorsAgreeWhenTested(data: RemoveDocumentsData)
    ensures Truthy(HasRemoveErrorsAsWritten(data)) == HasRemoveErrors(data)
    ensures HasRemoveErrorsAsWritten(data).Bool? ==> HasRemoveErrorsAsWritten(data) == Bool(HasRemoveErrors(data))
  {
  }

  // ---------------------------------------------------------------------------
  // Validators (they check types at run time, so they take any value)
  // ---------------------------------------------------------------------------

  /** `validateDocumentRefs`: a non-empty array whose every element is a non-empty string. */
  function ValidateDocumentRefs(documentRefs: Value): (r: bool)
    ensures r ==> documentRefs.Arr? && |documentRefs.items| > 0
    ensures r <==> documentRefs.Arr? && |documentRefs.items| > 0
                   && forall i :: 0 <= i < |documentRefs.items| ==> ValidateScanSheetRef(documentRefs.items[i])
  {
    if !documentRefs.Arr? || |documentRefs.items| == 0 then false
    else forall i :: 0 <= i < |documentRefs.items| ==> documentRefs.items[i].Str? && |documentRefs.items[i].s| > 0
  }

  /** `validateScanSheetRef`: a non-empty string. */
  function ValidateScanSheetRef(ref: Value): (r: bool)
    ensures r <==> ref.Str? && ref.s != ""
  {
    ref.Str? && |ref.s| > 0
  }

  /** An array of valid refs stays valid when a valid ref is appended; one bad element spoils it. */
  lemma ValidateDocumentRefsAppend(refs: seq<Value>, x: Value)
    ensures ValidateDocumentRefs(Arr(refs + [x])) <==>
            (refs == [] || ValidateDocumentRefs(Arr(refs))) && ValidateScanSheetRef(x)
  {
    var all := refs + [x];
    if ValidateDocumentRefs(Arr(all)) {
      assert all[|refs|] == x;
      assert forall i :: 0 <= i < |refs| ==> all[i] == refs[i];
    }
  }
}
