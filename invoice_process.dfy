/** invoice_process.py: the row-acceptance loop of `validate_file`, the mapping
    loop of `process_invoice`, and the Specialty Rx row mapper
    `_process_row_speciality_rx`, which turns one normalized sheet row into the
    31-column `pharmacy_invoices` record. Workbook access, the database and the
    batch log are outside; what they supply comes in as parameters. */
module InvoiceProcess {
  import opened Wrappers
  import opened Text
  import opened Models
  import opened Utilities
  import opened InvoiceRecord

  // ------------------------------------------------------------ validate_file

  /** `header_row_index + skip_rows_after_header + 1`: the first data row. */
  function DataStartIndex(s: ReaderSetting): int {
    s.headerRowIndex + s.skipRowsAfterHeader + 1
  }

  /** The last data row: the row count less the `skip_ending_rows` footer
      rows, which is what `size` is evidently meant to be. */
  function DataEndIndex(s: ReaderSetting, maxRow: nat): int {
    maxRow - s.skipEndingRows
  }

  /** The data region is what lies below the header and the rows skipped
      after it, and above the footer rows. */
  lemma DataRegionRows(s: ReaderSetting, maxRow: nat, r: int)
    ensures DataStartIndex(s) <= r <= DataEndIndex(s, maxRow) <==>
              s.headerRowIndex + s.skipRowsAfterHeader < r && r + s.skipEndingRows <= maxRow
  {
  }

  /** The row numbers in `lo..hi-1` that `isValid` accepts, in increasing order. */
  function AcceptedRows(lo: int, hi: int, isValid: int -> bool): (rows: seq<int>)
    ensures |rows| <= if lo <= hi then hi - lo else 0
    ensures forall i :: 0 <= i < |rows| ==> lo <= rows[i] < hi
    ensures forall r :: r in rows <==> lo <= r < hi && isValid(r)
    ensures forall i, j :: 0 <= i < j < |rows| ==> rows[i] < rows[j]
    decreases hi - lo
  {
    if lo >= hi then []
    else AcceptedRows(lo, hi - 1, isValid) + (if isValid(hi - 1) then [hi - 1] else [])
  }

  /** The loop `for row in range(1, nrows): if is_valid(row): data.append(row)`. */
  method CollectValidRows(nrows: nat, isValid: int -> bool) returns (data: seq<int>)
    ensures data == AcceptedRows(1, nrows, isValid)
  {
    data := [];
    var row := 1;
    while row < nrows
      invariant 1 <= row && (row <= nrows || row == 1)
      invariant data == AcceptedRows(1, row, isValid)
    {
      if isValid(row) {
        data := data + [row];
      }
      row := row + 1;
    }
  }

  /** The verdict `nrows == len(data)` as written, over rows `1..nrows-1`. */
  predicate AcceptedAsWritten(nrows: nat, isValid: int -> bool) {
    |AcceptedRows(1, nrows, isValid)| == nrows
  }

  /** As written, no sheet with a non-blank first row can pass: the loop sees
      at most `nrows - 1` rows, so `len(data)` never reaches `nrows`. */
  lemma AsWrittenRejectsNonEmpty(nrows: nat, isValid: int -> bool)
    ensures AcceptedAsWritten(nrows, isValid) <==> nrows == 0
  {
  }

  /** Even with `is_valid_row`, which accepts everything, a three-row sheet is rejected. */
  lemma AsWrittenRejectsValidSheet()
    ensures !AcceptedAsWritten(3, r => IsValidRow([]))
  {
    AsWrittenRejectsNonEmpty(3, r => IsValidRow([]));
  }

  /** A valid last row is appended after the rows accepted before it. */
  lemma AcceptedStep(lo: int, hi: int, isValid: int -> bool)
    requires lo < hi && isValid(hi - 1)
    ensures AcceptedRows(lo, hi, isValid) == AcceptedRows(lo, hi - 1, isValid) + [hi - 1]
  {
  }

  /** The row numbers `lo, lo+1, ..., hi-1`. */
  function RowRange(lo: int, hi: int): (rows: seq<int>)
    ensures |rows| == if lo <= hi then hi - lo else 0
    ensures forall i :: 0 <= i < |rows| ==> rows[i] == lo + i
    decreases hi - lo
  {
    if lo >= hi then [] else RowRange(lo, hi - 1) + [hi - 1]
  }

  /** When every row of `lo..hi-1` is valid, all of them are accepted, in order. */
  lemma {:induction false} AllRowsAccepted(lo: int, hi: int, isValid: int -> bool)
    requires forall r :: lo <= r < hi ==> isValid(r)
    ensures AcceptedRows(lo, hi, isValid) == RowRange(lo, hi)
    decreases hi - lo
  {
    if lo < hi {
      AllRowsAccepted(lo, hi - 1, isValid);
      AcceptedStep(lo, hi, isValid);
    }
  }

  /** The verdict the loop is evidently meant to give: over rows `1..nrows`. */
  predicate AcceptedIntended(nrows: nat, isValid: int -> bool) {
    |AcceptedRows(1, nrows + 1, isValid)| == nrows
  }

  /** With the corrected range a sheet passes exactly when every one of its
      `nrows` rows is valid (the all-or-nothing rule). */
  lemma {:induction false} IntendedAcceptsAllValid(nrows: nat, isValid: int -> bool)
    ensures AcceptedIntended(nrows, isValid) <==> forall r :: 1 <= r <= nrows ==> isValid(r)
  {
    if nrows > 0 {
      IntendedAcceptsAllValid(nrows - 1, isValid);
      assert AcceptedRows(1, nrows + 1, isValid)
          == AcceptedRows(1, nrows, isValid) + (if isValid(nrows) then [nrows] else []);
    }
  }

  /** Rows `1..nrows` all pass `is_valid`. */
  predicate AllRowsValid(nrows: nat, isValid: int -> bool) {
    forall row :: 1 <= row <= nrows ==> isValid(row)
  }

  /** The corrected verdict: the sheet passes exactly when all its rows are
      valid, and then the accepted rows are `1, 2, ..., nrows`. */
  lemma IntendedVerdict(nrows: nat, isValid: int -> bool, data: seq<int>)
    requires data == AcceptedRows(1, nrows + 1, isValid)
    ensures |data| == nrows <==> AllRowsValid(nrows, isValid)
    ensures |data| == nrows ==> data == RowRange(1, nrows + 1)
  {
    IntendedAcceptsAllValid(nrows, isValid);
    if |data| == nrows {
      AllRowsAccepted(1, nrows + 1, isValid);
    }
  }

  datatype FileError = ReaderSettingMissing | FileInvalid

  /** What `validate_file` returns: the facility's pharmacy map, its reader
      setting and the accepted row numbers. */
  datatype ValidatedFile = ValidatedFile(pharmacyMap: FacilityPharmacyMap, settings: ReaderSetting, data: seq<int>)

  /** `validate_file`, from the reader-setting check to the verdict. The
      worksheet is the one already opened; `isValid` is the row check the
      source calls `is_valid`. */
  method ValidateFile(pharmacyMap: FacilityPharmacyMap, settings: Option<ReaderSetting>, ws: Worksheet,
                      isValid: int -> bool)
    returns (r: Result<ValidatedFile, FileError>)
    ensures settings.None? ==> r == Failure(ReaderSettingMissing)
    ensures settings.Some? ==> (r.Success? <==> ws != [] && IsBlankRow(ws[0]))
    ensures settings.Some? && r.Failure? ==> r.error == FileInvalid
    ensures r.Success? ==> r.value == ValidatedFile(pharmacyMap, settings.value, [])
  {
    if settings.None? {
      return Failure(ReaderSettingMissing);
    }
    var nrows := GetValidRowsCount(ws);
    var data := CollectValidRows(nrows, isValid);
    AsWrittenRejectsNonEmpty(nrows, isValid);
    if nrows != |data| {
      return Failure(FileInvalid);
    }
    return Success(ValidatedFile(pharmacyMap, settings.value, data));
  }

  /** `validate_file` with the loop over `range(1, nrows + 1)`. */
  method ValidateFileIntended(pharmacyMap: FacilityPharmacyMap, settings: Option<ReaderSetting>, ws: Worksheet,
                              isValid: int -> bool)
    returns (r: Result<ValidatedFile, FileError>)
    ensures settings.None? ==> r == Failure(ReaderSettingMissing)
    ensures settings.Some? ==>
              (r.Success? <==> AllRowsValid(ValidRowsCount(ws), isValid))
    ensures settings.Some? && r.Failure? ==> r.error == FileInvalid
    ensures r.Success? ==> r.value == ValidatedFile(pharmacyMap, settings.value, RowRange(1, ValidRowsCount(ws) + 1))
  {
    if settings.None? {
      return Failure(ReaderSettingMissing);
    }
    var nrows := GetValidRowsCount(ws);
    var data := CollectValidRows(nrows + 1, isValid);
    IntendedVerdict(nrows, isValid, data);
    if nrows != |data| {
      return Failure(FileInvalid);
    }
    return Success(ValidatedFile(pharmacyMap, settings.value, data));
  }

  // ---------------------------------------------------------- process_invoice

  /** The loop `for row in invoice_data: result.append(process_invoice_func(row))`.
      A mapper that raises stops the loop; its exception is the result. */
  method ProcessInvoice<R, T, E>(invoiceData: seq<R>, mapper: R -> Result<T, E>) returns (res: Result<seq<T>, E>)
    ensures res.Success? <==> forall i :: 0 <= i < |invoiceData| ==> mapper(invoiceData[i]).Success?
    ensures res.Success? ==>
              |res.value| == |invoiceData|
              && forall i :: 0 <= i < |invoiceData| ==> mapper(invoiceData[i]) == Success(res.value[i])
    ensures res.Failure? ==>
              exists i :: 0 <= i < |invoiceData| && mapper(invoiceData[i]) == Failure(res.error)
                          && forall j :: 0 <= j < i ==> mapper(invoiceData[j]).Success?
  {
    var result := [];
    var k := 0;
    while k < |invoiceData|
      invariant 0 <= k <= |invoiceData|
      invariant |result| == k
      invariant forall i :: 0 <= i < k ==> mapper(invoiceData[i]) == Success(result[i])
    {
      var record := mapper(invoiceData[k]);
      if record.Failure? {
        return Failure(record.error);
      }
      result := result + [record.value];
      k := k + 1;
    }
    return Success(result);
  }

  // ------------------------------------------------ _process_row_speciality_rx

  /** A normalized row: a dict from field name to value. */
  type InvoiceRow = map<string, Value>

  /** The exception a Python mapper raises, and the key whose value caused it. */
  datatype MappingError = KeyError(key: string) | TypeError(key: string) | IndexError(key: string)
                        | AttributeError(key: string)

  /** The module-level names the mapper reads but no shown file defines
      (`invoice_batch_log_id`, `pharmacy_id`, `facility_id`, `payer_group_id`,
      `invoice_dt`). */
  datatype BatchContext = BatchContext(invoiceBatchId: Value, pharmacyId: Value, facilityId: Value,
                                       payerGroupId: Value, invoiceDt: Value)

  // ---- get_first_name / get_last_name

  /** `get_first_name(patient)`: the text before the first comma, all of it
      when there is none. */
  function FirstName(patient: string): (first: string)
    ensures ',' !in first
  {
    SplitOn(patient, ',')[0]
  }

  /** The first name is the text up to the first comma, all of `patient`
      when it has none. */
  lemma FirstNamePrefix(patient: string)
    ensures var first := FirstName(patient);
            && |first| <= |patient| && first == patient[..|first|]
            && (|first| < |patient| <==> ',' in patient)
            && (|first| < |patient| ==> patient[|first|] == ',')
  {
    SplitOnFirstPiece(patient, ',');
  }

  /** `get_last_name(patient)`: the second comma-separated piece, `None` when
      there is no comma. */
  function LastName(patient: string): (last: Option<string>)
    ensures last.None? <==> ',' !in patient
  {
    var parts := SplitOn(patient, ',');
    if |parts| == 1 then
      assert patient == Join(parts, ',') by { JoinSplit(patient, ','); }
      None
    else
      assert ',' in patient by {
        var i := IndexOf(patient, ',');
        assert i < |patient|;
      }
      Some(parts[1])
  }

  /** A name written `first,last` splits back into its two pieces. */
  lemma NameSplitRoundTrip(first: string, last: string)
    requires ',' !in first && ',' !in last
    ensures FirstName(first + "," + last) == first
    ensures LastName(first + "," + last) == Some(last)
  {
    SplitJoin([first, last], ',');
    assert Join([first, last], ',') == first + "," + last;
  }

  /** A name without a comma is all first name and has no last name. */
  lemma NameWithoutComma(name: string)
    requires ',' !in name
    ensures FirstName(name) == name
    ensures LastName(name).None?
  {
    SplitJoin([name], ',');
  }

  /** The four cases of test_process.py. */
  lemma NameSplitExamples(full: string, single: string)
    requires full == "John,Doe" && single == "John"
    ensures FirstName(full) == "John" && LastName(full) == Some("Doe")
    ensures FirstName(single) == "John" && LastName(single).None?
  {
    NameSplitRoundTrip("John", "Doe");
    NameWithoutComma("John");
  }

  // ---- ssn

  /** Python's `s[i:j]` for non-negative bounds: both are clamped to `len(s)`. */
  function Slice(s: string, i: nat, j: nat): (r: string)
    ensures i <= j <= |s| ==> r == s[i..j]
    ensures i <= |s| < j ==> r == s[i..]
    ensures |s| <= i || j <= i ==> r == []
  {
    var a, b := (if i < |s| then i else |s|), (if j < |s| then j else |s|);
    if a <= b then s[a..b] else []
  }

  /** How many of the positions `0..|s|-1` below 11, other than 3 and 6, exist. */
  function KeptCount(n: nat): nat {
    if n >= 11 then 9 else if n > 6 then n - 2 else if n > 3 then n - 1 else n
  }

  /** `s[:3] + s[4:6] + s[7:11]`: the characters of `s` at positions below 11
      except 3 and 6, in order. */
  function SsnSlices(s: string): (r: string)
    ensures |r| == KeptCount(|s|)
    ensures forall k :: 0 <= k < |s| && k < 11 && k != 3 && k != 6 ==>
              r[k - (if k > 6 then 2 else if k > 3 then 1 else 0)] == s[k]
  {
    Slice(s, 0, 3) + Slice(s, 4, 6) + Slice(s, 7, 11)
  }

  /** The `NNN-NN-NNNN` spelling of a nine-character SSN. */
  function DashedSsn(d: string): string
    requires |d| == 9
  {
    d[..3] + "-" + d[3..5] + "-" + d[5..]
  }

  /** The slices undo the dashes: a dashed SSN comes out as its nine digits. */
  lemma SsnRoundTrip(d: string)
    requires |d| == 9
    ensures SsnSlices(DashedSsn(d)) == d
  {
    var s := DashedSsn(d);
    var r := SsnSlices(s);
    forall k | 0 <= k < 9 ensures r[k] == d[k] {
      var p := if k >= 5 then k + 2 else if k >= 3 then k + 1 else k;
      assert s[p] == d[k];
    }
  }

  /** A nine-digit SSN typed without dashes loses its 4th and 7th digits. */
  lemma UndashedSsnLosesDigits(d: string)
    requires |d| == 9
    ensures SsnSlices(d) == d[..3] + d[4..6] + d[7..]
    ensures |SsnSlices(d)| == 7
  {
  }

  lemma UndashedSsnExample(d: string)
    requires d == "123456789"
    ensures SsnSlices(d) == "1235689"
  {
    UndashedSsnLosesDigits(d);
  }

  /** The `ssn` column: the slices, or the sentinel `0` for a masked value
      starting with `_`. */
  function SsnValue(ssnNo: string): (v: Value)
    requires |ssnNo| > 0
    ensures v == Int(0) <==> ssnNo[0] == '_'
    ensures ssnNo[0] != '_' ==> v == Str(SsnSlices(ssnNo))
  {
    if ssnNo[0] != '_' then Str(SsnSlices(ssnNo)) else Int(0)
  }

  // ---- copay_flg

  /** `str.upper` on ASCII letters. */
  function UpperChar(c: char): char {
    if 'a' <= c <= 'z' then (c as int - 'a' as int + 'A' as int) as char else c
  }

  function Upper(s: string): (u: string)
    ensures |u| == |s| && forall k :: 0 <= k < |s| ==> u[k] == UpperChar(s[k])
  {
    seq(|s|, k requires 0 <= k < |s| => UpperChar(s[k]))
  }

  /** `'Y' if copay.upper() == 'COPAY' else None`. */
  function CopayFlag(copay: string): (flag: Value)
    ensures flag == Str("Y") || flag == Nil
  {
    if Upper(copay) == "COPAY" then Str("Y") else Nil
  }

  /** The flag is set exactly for the five letters of "copay" in any mix of cases. */
  lemma CopayFlagExact(copay: string)
    ensures CopayFlag(copay) == Str("Y") <==>
              |copay| == 5 && forall k :: 0 <= k < 5 ==> copay[k] == "COPAY"[k] || copay[k] == "copay"[k]
  {
    var u := Upper(copay);
    if |copay| == 5 && forall k :: 0 <= k < 5 ==> copay[k] == "COPAY"[k] || copay[k] == "copay"[k] {
      assert forall k :: 0 <= k < 5 ==> u[k] == "COPAY"[k];
      assert u == "COPAY";
    }
    if u == "COPAY" {
      forall k | 0 <= k < 5 ensures copay[k] == "COPAY"[k] || copay[k] == "copay"[k] {
        assert UpperChar(copay[k]) == "COPAY"[k];
      }
    }
  }

  // ---- the mapper

  function Lookup(row: InvoiceRow, key: string): Result<Value, MappingError> {
    if key in row then Success(row[key]) else Failure(KeyError(key))
  }

  /** `row[key]` used as text: a missing key is a `KeyError`, a value that is
      not text raises `err`. */
  function LookupText(row: InvoiceRow, key: string, err: MappingError): Result<string, MappingError> {
    if key !in row then Failure(KeyError(key))
    else if row[key].Str? then Success(row[key].text)
    else Failure(err)
  }

  /** The row fields the mapper reads, in the order it reads them. */
  const SpecialtyRxFieldNames: seq<string> := [
    "patient", "ssn_no", "dispdt", "rx_otc", "drug", "rx_no", "ndc", "qty", "ds", "billamt", "copay", "comment"]

  /** A row the mapper accepts: every field present, `patient`, `ssn_no` and
      `copay` text, and `ssn_no` non-empty. */
  predicate IsSpecialtyRxRow(row: InvoiceRow) {
    && "patient" in row && row["patient"].Str?
    && "ssn_no" in row && row["ssn_no"].Str? && |row["ssn_no"].text| > 0
    && "dispdt" in row && "rx_otc" in row && "drug" in row && "rx_no" in row && "ndc" in row
    && "qty" in row && "ds" in row && "billamt" in row
    && "copay" in row && row["copay"].Str?
    && "comment" in row
  }

  /** The row fields the mapper reads, once each has been read without raising. */
  datatype SpecialtyRxFields = SpecialtyRxFields(
    patient: string, ssnNo: string, dispdt: Value, rxOtc: Value, drug: Value, rxNo: Value,
    ndc: Value, qty: Value, ds: Value, billamt: Value, copay: string, comment: Value)

  /** The reads of `_process_row_speciality_rx`, in Python's evaluation order:
      `row['patient']` for the names, `row['ssn_no'][0]` for the sentinel test,
      then the dict values from `dispdt` to `comment`. */
  function ReadSpecialtyRx(row: InvoiceRow): (r: Result<SpecialtyRxFields, MappingError>)
    ensures r.Success? <==> IsSpecialtyRxRow(row)
    ensures r.Success? ==> r.value == SpecialtyRxFields(
              row["patient"].text, row["ssn_no"].text, row["dispdt"], row["rx_otc"], row["drug"],
              row["rx_no"], row["ndc"], row["qty"], row["ds"], row["billamt"], row["copay"].text, row["comment"])
    ensures r.Failure? ==> r.error.key in SpecialtyRxFieldNames
    ensures "patient" !in row ==> r == Failure(KeyError("patient"))
  {
    var patient :- LookupText(row, "patient", AttributeError("patient"));
    var ssnNo :- LookupText(row, "ssn_no", TypeError("ssn_no"));
    if |ssnNo| == 0 then Failure(IndexError("ssn_no"))
    else
      var dispdt :- Lookup(row, "dispdt");
      var rxOtc :- Lookup(row, "rx_otc");
      var drug :- Lookup(row, "drug");
      var rxNo :- Lookup(row, "rx_no");
      var ndc :- Lookup(row, "ndc");
      var qty :- Lookup(row, "qty");
      var ds :- Lookup(row, "ds");
      var billamt :- Lookup(row, "billamt");
      var copay :- LookupText(row, "copay", AttributeError("copay"));
      var comment :- Lookup(row, "comment");
      Success(SpecialtyRxFields(patient, ssnNo, dispdt, rxOtc, drug, rxNo, ndc, qty, ds, billamt, copay, comment))
  }

  /** The value the mapper's dict literal gives each key. */
  function SpecialtyRxValue(ctx: BatchContext, f: SpecialtyRxFields, c: Column): (v: Value)
    requires |f.ssnNo| > 0
    ensures IsNullColumn(c) ==> v == Nil
    ensures c == Ssn ==> (v == Int(0) <==> f.ssnNo[0] == '_')
  {
    match c
      case InvoiceBatchId => ctx.invoiceBatchId
      case PharmacyId => ctx.pharmacyId
      case FacilityId => ctx.facilityId
      case PayerGroupId => ctx.payerGroupId
      case InvoiceDt => ctx.invoiceDt
      case FirstNm => Str(FirstName(f.patient))
      case LastNm => if LastName(f.patient).Some? then Str(LastName(f.patient).value) else Nil
      case Ssn => SsnValue(f.ssnNo)
      case Dob => Nil
      case Gender => Nil
      case DispenseDt => f.dispdt
      case ProductCategory => f.rxOtc
      case DrugNm => f.drug
      case Doctor => Nil
      case RxNbr => f.rxNo
      case Ndc => f.ndc
      case RejectCd => Nil
      case Quantity => f.qty
      case DaysSupplied => f.ds
      case ChargeAmt => f.billamt
      case CopayAmt => Nil
      case CopayFlg => CopayFlag(f.copay)
      case CensusMatchCd => Nil
      case StatusCd => Nil
      case ChargeConfirmedFlg => Nil
      case DuplicateFlg => Nil
      case Note => f.comment
      case RequestCreditFlg => Nil
      case CreditRequestDt => Nil
      case CreditRequestCd => Nil
      case DaysOverbilled => Nil
  }

  /** The dict literal the mapper returns: every key, in the literal's order,
      with its value. */
  function SpecialtyRxRecord(ctx: BatchContext, f: SpecialtyRxFields): (rec: Record)
    requires |f.ssnNo| > 0
    ensures Keys(rec) == RecordOrder
  {
    seq(ColumnCount, i requires 0 <= i < ColumnCount => Entry(ColumnAt(i), SpecialtyRxValue(ctx, f, ColumnAt(i))))
  }

  /** Each key of the record looks up the value the literal gives it. */
  lemma SpecialtyRxLookup(ctx: BatchContext, f: SpecialtyRxFields, c: Column)
    requires |f.ssnNo| > 0
    ensures Get(SpecialtyRxRecord(ctx, f), c) == Some(SpecialtyRxValue(ctx, f, c))
  {
    GetByPosition(SpecialtyRxRecord(ctx, f), c);
  }

  /** `_process_row_speciality_rx(row)`; a Python exception is a `Failure`
      naming the first field, in evaluation order, that raised it. */
  function MapSpecialtyRx(ctx: BatchContext, row: InvoiceRow): (r: Result<Record, MappingError>)
    ensures r.Success? <==> IsSpecialtyRxRow(row)
    ensures r.Failure? ==> r.error.key in SpecialtyRxFieldNames
  {
    var f :- ReadSpecialtyRx(row);
    Success(SpecialtyRxRecord(ctx, f))
  }

  /** The record's keys are the dict literal's, in its order, and so,
      spelled out, the INSERT statement's column list. */
  lemma SpecialtyRxColumns(ctx: BatchContext, row: InvoiceRow)
    requires IsSpecialtyRxRow(row)
    ensures Keys(MapSpecialtyRx(ctx, row).value) == RecordOrder
    ensures Names(Keys(MapSpecialtyRx(ctx, row).value)) == InsertColumns
  {
    RecordOrderMatchesInsert();
  }

  /** The record columns the Specialty Rx mapper always leaves `None`. */
  predicate IsNullColumn(c: Column) {
    match c
    case Dob | Gender | Doctor | RejectCd | CopayAmt | CensusMatchCd | StatusCd
       | ChargeConfirmedFlg | DuplicateFlg | RequestCreditFlg | CreditRequestDt
       | CreditRequestCd | DaysOverbilled => true
    case _ => false
  }

  /** The row field a record column is copied from unchanged, if any. */
  function CopiedFrom(c: Column): Option<string> {
    match c
    case DispenseDt => Some("dispdt")
    case ProductCategory => Some("rx_otc")
    case DrugNm => Some("drug")
    case RxNbr => Some("rx_no")
    case Ndc => Some("ndc")
    case Quantity => Some("qty")
    case DaysSupplied => Some("ds")
    case ChargeAmt => Some("billamt")
    case Note => Some("comment")
    case _ => None
  }

  /** The columns a Specialty Rx invoice does not supply are `None`. */
  lemma SpecialtyRxNullColumns(ctx: BatchContext, f: SpecialtyRxFields)
    requires |f.ssnNo| > 0
    ensures forall c :: IsNullColumn(c) ==> Get(SpecialtyRxRecord(ctx, f), c) == Some(Nil)
  {
    forall c | IsNullColumn(c) ensures Get(SpecialtyRxRecord(ctx, f), c) == Some(Nil) {
      SpecialtyRxLookup(ctx, f, c);
    }
  }

  /** The batch columns come from the context. */
  lemma SpecialtyRxBatchColumns(ctx: BatchContext, f: SpecialtyRxFields)
    requires |f.ssnNo| > 0
    ensures var rec := SpecialtyRxRecord(ctx, f);
            && Get(rec, InvoiceBatchId) == Some(ctx.invoiceBatchId)
            && Get(rec, PharmacyId) == Some(ctx.pharmacyId)
            && Get(rec, FacilityId) == Some(ctx.facilityId)
            && Get(rec, PayerGroupId) == Some(ctx.payerGroupId)
            && Get(rec, InvoiceDt) == Some(ctx.invoiceDt)
  {
    SpecialtyRxLookup(ctx, f, InvoiceBatchId);
    SpecialtyRxLookup(ctx, f, PharmacyId);
    SpecialtyRxLookup(ctx, f, FacilityId);
    SpecialtyRxLookup(ctx, f, PayerGroupId);
    SpecialtyRxLookup(ctx, f, InvoiceDt);
  }

  /** The name, SSN and copay columns are derived from `patient`, `ssn_no`
      and `copay`. */
  lemma SpecialtyRxDerivedColumns(ctx: BatchContext, f: SpecialtyRxFields)
    requires |f.ssnNo| > 0
    ensures var rec := SpecialtyRxRecord(ctx, f);
            && Get(rec, FirstNm) == Some(Str(FirstName(f.patient)))
            && Get(rec, LastNm) == Some(if ',' in f.patient then Str(LastName(f.patient).value) else Nil)
            && Get(rec, Ssn) == Some(SsnValue(f.ssnNo))
            && Get(rec, CopayFlg) == Some(CopayFlag(f.copay))
  {
    SpecialtyRxLookup(ctx, f, FirstNm);
    SpecialtyRxLookup(ctx, f, LastNm);
    SpecialtyRxLookup(ctx, f, Ssn);
    SpecialtyRxLookup(ctx, f, CopayFlg);
  }

  /** From a row: each copied column holds the row field it names, unchanged. */
  lemma SpecialtyRxRowCopies(ctx: BatchContext, row: InvoiceRow)
    requires IsSpecialtyRxRow(row)
    ensures forall c :: CopiedFrom(c).Some? ==>
              CopiedFrom(c).value in row && Get(MapSpecialtyRx(ctx, row).value, c) == Some(row[CopiedFrom(c).value])
  {
    var f := ReadSpecialtyRx(row).value;
    assert MapSpecialtyRx(ctx, row).value == SpecialtyRxRecord(ctx, f);
    forall c | CopiedFrom(c).Some?
      ensures CopiedFrom(c).value in row && Get(MapSpecialtyRx(ctx, row).value, c) == Some(row[CopiedFrom(c).value])
    {
      SpecialtyRxLookup(ctx, f, c);
    }
  }

  /** The errors come in evaluation order: a bad `patient` is reported before
      anything else, an empty `ssn_no` before any later field. */
  lemma SpecialtyRxErrorOrder(ctx: BatchContext, row: InvoiceRow)
    ensures "patient" in row && !row["patient"].Str? ==> MapSpecialtyRx(ctx, row) == Failure(AttributeError("patient"))
    ensures "patient" in row && row["patient"].Str? && "ssn_no" in row && row["ssn_no"] == Str("") ==>
              MapSpecialtyRx(ctx, row) == Failure(IndexError("ssn_no"))
    ensures "patient" in row && row["patient"].Str? && "ssn_no" !in row ==>
              MapSpecialtyRx(ctx, row) == Failure(KeyError("ssn_no"))
  {
  }
}
