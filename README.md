# Pharmacy invoice loader: a verified model of its core

This project models, in Dafny, the deterministic core of a pharmacy-invoice
loader. The loader takes the monthly invoice spreadsheets that pharmacies send
to care facilities and turns each sheet row into one line of the
`pharmacy_invoices` table. The modelled core has four parts:

- **Sheet helpers** (`utilities.py`):
  - `clean_text`, a strip;
  - `parse_date`, a `M/D/YYYY` reader that returns `None` instead of raising;
  - `get_valid_rows_count`, which counts rows up to the first blank one;
  - `get_valid_cols_count`, which counts header cells up to the first empty one;
  - `is_valid_row`.

  A worksheet is its rows in enumeration order; each cell holds text or
  nothing. `ws.max_row` is the number of rows and `ws.max_column` is the widest
  row; each is 1 when the sheet has no cell. An empty sheet therefore gets a
  valid-row count of 1, since iterating it yields no row and the function
  falls through to `ws.max_row`.
- **`validate_file` and `process_invoice`** (`invoice_process.py`):
  - the data-region arithmetic;
  - the all-or-nothing row-acceptance loop, over an abstract row check;
  - the loop that maps every accepted row through an abstract mapper.
- **The Specialty Rx row mapper** `_process_row_speciality_rx`. It turns one
  normalized row (a dict from field name to value) into the 31-key record:
  - it splits the patient name at the comma;
  - it reformats the SSN by slicing, or gives `0` for a masked SSN;
  - it derives the copay flag;
  - it copies or blanks the other fields.

  A Python exception is a `Failure` naming the field that raised it. The
  record is a sequence of key/value entries in the dict literal's order. Of
  the module-level names the mapper reads and no file defines, the batch id,
  pharmacy, facility, payer group and invoice date come in as a context value.
- **Folder creation** (`create_folder.py`). For every facility with a pharmacy
  map, one S3 key `year/month/facility/source/` is written per reader setting.
  The S3 bucket is a class whose `PutObject` appends to the list of keys.

Modules:

- `Wrappers`: `Option` and `Result`.
- `Text`: the Python `str` operations used. These are `isspace`, `strip`,
  `find`, `split` with a one-character separator, and `int`/`str` on decimal
  digits.
- `Models`: the database rows the core reads.
- `Utilities`, `InvoiceRecord`, `InvoiceProcess` and `CreateFolder`: the
  source files. `InvoiceRecord` holds the record's columns, the dict literal's
  key order and the INSERT statement's column list.

Two behaviours of the code worth knowing:

- The SSN slicing `s[:3]+s[4:6]+s[7:11]` yields nine digits only for the
  dashed `NNN-NN-NNNN` form. An undashed 9-digit SSN loses two digits
  (`InvoiceProcess.UndashedSsnLosesDigits`).
- The name split reads `John,Doe` as first name `John` and last name `Doe`,
  as the tests in `test_process.py` expect.

## Model

| member | source | states |
|---|---|---|
| Text.Strip | utilities.py:75 | `str.strip()`: the result is a contiguous piece of the input with only whitespace cut from each end; it is empty exactly when the input is all whitespace |
| Text.StripIdempotent | utilities.py:75 | stripping twice gives the same text as stripping once |
| Text.SplitOn | utilities.py:68 | `s.split(c)` gives at least one piece, and no piece contains `c` |
| Text.SplitOnFirstPiece | utilities.py:68 | the first piece of `s.split(c)` is the prefix of `s` before its first `c`, or all of `s` when `c` does not occur |
| Text.JoinSplit | utilities.py:68 | joining the pieces of `s.split(c)` with `c` gives `s` back |
| Text.SplitJoin | invoice_process.py:107-108 | splitting a join of separator-free pieces gives the pieces back |
| Text.DecimalString | create_folder.py:20 | `f"{n}"` is a non-empty run of digits: the spelling of `n` with exactly as many digits as `n` has |
| Text.DecimalRoundTrip | create_folder.py:20 | `int(f"{n}") == n`, and the spelling has no leading zero |
| Text.DigitsFixed | utilities.py:68 | every digit run is the zero-padded spelling of the number it denotes |
| Text.FixedDigitsValue | utilities.py:68 | a number below `10^w` reads back from its `w`-digit spelling |
| Utilities.CleanText | utilities.py:73-75 | `None` stays `None`; text becomes a contiguous piece of itself with only surrounding whitespace removed, and begins and ends with a non-space |
| Utilities.CleanTextIdempotent | utilities.py:73-75 | `clean_text(clean_text(v)) == clean_text(v)` |
| Utilities.ParseDate | utilities.py:60-70 | `None` gives `None`; a datetime comes back unchanged; a date parsed from text is a real calendar date at midnight |
| Utilities.FirstToken | utilities.py:68 | `val.split(' ')[0]` contains no space |
| Utilities.FirstTokenPrefix | utilities.py:68 | the first token is the prefix of the text before its first space, or all of it when there is no space |
| Utilities.ParseMonthDayYear | utilities.py:68 | a token `strptime(..., '%m/%d/%Y')` accepts has three slash-separated fields and gives a real calendar date at midnight |
| Utilities.ParseDateExact | utilities.py:67-70 | text parses to a date exactly when its first token is `M/D/YYYY` (month and day in one or two digits) for a real calendar date; anything else gives `None` |
| Utilities.ParsedIsSpelling | utilities.py:68 | a token `strptime` accepts is one of the spellings of the date it yields |
| Utilities.SpellingIsParsed | utilities.py:68 | every spelling of a calendar date parses to that date |
| Utilities.TwoDigitField | utilities.py:68 | `%m` and `%d` accept a number's one- or two-digit zero-padded spellings and nothing else |
| Utilities.YearFieldExact | utilities.py:68 | `%Y` accepts exactly the four-digit spelling of a year |
| Utilities.TokenFields | utilities.py:68 | a token with three slash-free fields is parsed field by field |
| Utilities.ParseDateIgnoresAfterSpace | utilities.py:68 | only the text before the first space matters |
| Utilities.ParseDateWhole | utilities.py:68 | a text without a space is parsed whole |
| Utilities.ParseDateInvoiceFormat | test_process.py:75 | `"12/14/2020"` parses to 14 December 2020 at midnight |
| Utilities.ParseDateWithTime | utilities.py:68 | `"12/14/2020 10:30"` parses to the same date as `"12/14/2020"` |
| Utilities.ParseDateLeapDay | utilities.py:67-70 | `"2/29/2020"` parses to 29 February 2020 |
| Utilities.ParseDateCommonYear | utilities.py:67-70 | `"2/29/2019"` gives `None` |
| Utilities.ParseDateRejectsMonth | utilities.py:67-70 | `"13/01/2020"` gives `None` |
| Utilities.ParseDateRejectsShortYear | utilities.py:67-70 | `"12/14/20"` gives `None` |
| Utilities.ParseDateRejectsIso | utilities.py:67-70 | `"2020-12-14"` gives `None` |
| Utilities.IsBlankRow | utilities.py:80 | a row is blank when each of its cells is `None` or strips to `""`; a row with no cells is blank |
| Utilities.LeadingRowCount | utilities.py:79-83 | the count is at most the row count; every row before it is non-blank; the row at it, if any, is blank |
| Utilities.LeadingRowCountUnique | utilities.py:79-83 | those three properties determine the count |
| Utilities.TrailingRowsIgnored | utilities.py:79-81 | rows after the first blank row do not change the count |
| Utilities.MaxRow | utilities.py:83 | `ws.max_row`: the row count, and 1 for a sheet with no cell |
| Utilities.ValidRowsCount | utilities.py:78-83 | 1 for an empty sheet; otherwise the leading non-blank row count: every row before it is non-blank and the row at it, if any, is blank; never above `max_row` |
| Utilities.GetValidRowsCount | utilities.py:78-83 | the loop returns `ValidRowsCount`: the index before the first blank row, or `max_row` when no row is blank, which is 1 for an empty sheet |
| Utilities.MaxColumn | utilities.py:87 | `max_column` is at least 1, no row is wider, and it is either 1 or the width of some row |
| Utilities.HeaderCell | utilities.py:89 | `ws.cell(1, col).value`: the first row's cell at `col`, and `None` past its end |
| Utilities.ScannedColsCount | utilities.py:86-91 | the scan as written reports `max_column` exactly when headers `1..max_column-1` are all truthy; otherwise it reports `col - 1` for the first falsy header `col` below `max_column` |
| Utilities.GetValidColsCount | utilities.py:86-91 | the loop over `range(1, ncols)` returns `ScannedColsCount` |
| Utilities.LeadingHeaderCount | utilities.py:86-91 | the intended count: headers `1..n` are truthy and header `n + 1`, if there is one, is not |
| Utilities.GetValidColsCountIntended | utilities.py:86-91 | the loop over `range(1, ncols + 1)` returns `LeadingHeaderCount` |
| Utilities.ScanSkipsLastHeader | utilities.py:88 | the two counts differ exactly when every header but the last is present and the last is empty |
| Utilities.ScanSkipsLastHeaderExample | utilities.py:88-91 | headers `patient`, `""`: the scan reports 2 columns, the intended count is 1 |
| Utilities.WhitespaceCell | utilities.py:80-89 | any non-empty whitespace-only cell is truthy for the column scan and blank for the row scan |
| Utilities.WhitespaceHeader | utilities.py:80-89 | on the sheet `[[" "]]` the column scan counts one column, while the row scan finds no non-blank row |
| Utilities.IsValidRow | utilities.py:153-154 | every row is accepted |
| InvoiceRecord.Position | invoice_process.py:112-142 | each column stands at one position of the dict literal |
| InvoiceRecord.PositionOfColumnAt | invoice_process.py:112-142 | the position of the key at position `i` is `i` |
| InvoiceRecord.ColumnNameMatchesInsert | invoice_process.py:64-94 | each dict key is spelled like the INSERT column at the same position |
| InvoiceRecord.NameAt | invoice_process.py:64-143 | the dict key at each position is spelled like the INSERT column at that position |
| InvoiceRecord.RecordOrderMatchesInsert | invoice_process.py:62-96 | spelled out, the dict literal's keys are the INSERT statement's column list, in order |
| InvoiceRecord.RecordOrderDistinct | invoice_process.py:111-143 | the dict literal names no key twice |
| InvoiceRecord.GetAt | invoice_process.py:111-143 | in a record with distinct keys, each entry is what its key looks up |
| InvoiceRecord.GetByPosition | invoice_process.py:111-143 | a record in the dict literal's key order answers each key with the entry at that key's position |
| InvoiceProcess.DataStartIndex | invoice_process.py:31 | the first data row is `header_row_index + skip_rows_after_header + 1` |
| InvoiceProcess.DataEndIndex | invoice_process.py:32 | the last data row is the row count less `skip_ending_rows` |
| InvoiceProcess.DataRegionRows | invoice_process.py:31-32 | the data rows lie below the header and the rows skipped after it, and above the footer rows |
| InvoiceProcess.AcceptedRows | invoice_process.py:38-41 | the accepted rows are exactly the valid rows in range, in increasing order, at most one per row |
| InvoiceProcess.CollectValidRows | invoice_process.py:36-41 | the loop over `range(1, nrows)` builds `data` as the accepted rows `1..nrows-1` |
| InvoiceProcess.AsWrittenRejectsNonEmpty | invoice_process.py:38-44 | as written, a sheet passes exactly when `nrows == 0` |
| InvoiceProcess.AsWrittenRejectsValidSheet | invoice_process.py:38-44 | even when every row is valid, a three-row sheet is rejected |
| InvoiceProcess.IntendedAcceptsAllValid | invoice_process.py:38-44 | with the loop over `1..nrows`, a sheet passes exactly when every one of its rows is valid |
| InvoiceProcess.AcceptedStep | invoice_process.py:38-41 | a valid row is appended after the rows accepted before it |
| InvoiceProcess.RowRange | invoice_process.py:38 | the row numbers `lo..hi-1`, in order |
| InvoiceProcess.AllRowsAccepted | invoice_process.py:38-41 | when every row in range is valid, the accepted rows are all of them, in order |
| InvoiceProcess.IntendedVerdict | invoice_process.py:38-44 | with the loop over `1..nrows`, `len(data) == nrows` exactly when every row is valid, and then `data` is `1..nrows` |
| InvoiceProcess.ValidateFile | invoice_process.py:11-46 | no reader setting: `ReaderSettingMissing`; otherwise success exactly when the sheet's first row exists and is blank, with no data rows; any failure is `FileInvalid`. An empty sheet fails, since its count is 1 |
| InvoiceProcess.ValidateFileIntended | invoice_process.py:34-46 | corrected loop: success exactly when rows `1..get_valid_rows_count(ws)` are all valid; then `data` is exactly those row numbers, in order, next to the given map and setting |
| InvoiceProcess.ProcessInvoice | invoice_process.py:57-60 | success exactly when every row maps; then one record per row, in input order; otherwise the error is that of the first row that fails |
| InvoiceProcess.FirstName | invoice_process.py:107 | the first name contains no comma |
| InvoiceProcess.FirstNamePrefix | invoice_process.py:107 | the first name is the text before the first comma, or all of it when there is none |
| InvoiceProcess.LastName | invoice_process.py:108 | the last name is `None` exactly when the name has no comma |
| InvoiceProcess.NameSplitRoundTrip | invoice_process.py:107-108 | `first + "," + last` splits back into `first` and `last` |
| InvoiceProcess.NameWithoutComma | invoice_process.py:107-108 | a name without a comma is all first name, with no last name |
| InvoiceProcess.NameSplitExamples | test_process.py:6-19 | `John,Doe` gives `John` and `Doe`; `John` gives `John` and `None` |
| InvoiceProcess.Slice | invoice_process.py:109 | Python slicing clamps both bounds to the length, and an empty or inverted range gives `""` |
| InvoiceProcess.SsnSlices | invoice_process.py:109 | the slices keep, in order, the characters at positions below 11 other than 3 and 6 |
| InvoiceProcess.SsnRoundTrip | invoice_process.py:109 | an `NNN-NN-NNNN` SSN comes out as its nine digits |
| InvoiceProcess.UndashedSsnLosesDigits | invoice_process.py:109 | a nine-character SSN without dashes loses its 4th and 7th characters |
| InvoiceProcess.UndashedSsnExample | invoice_process.py:109 | `"123456789"` becomes `"1235689"` |
| InvoiceProcess.SsnValue | invoice_process.py:109 | the value is the sentinel `0` exactly when the SSN starts with `_`; otherwise it is the text of the slices |
| InvoiceProcess.Upper | invoice_process.py:133 | `str.upper` keeps the length, upper-cases each ASCII letter and leaves every other character as it is |
| InvoiceProcess.CopayFlag | invoice_process.py:133 | the flag is `'Y'` or `None` |
| InvoiceProcess.CopayFlagExact | invoice_process.py:133 | the flag is `'Y'` exactly for the five letters of `copay` in any mix of cases |
| InvoiceProcess.ReadSpecialtyRx | invoice_process.py:106-145 | the reads succeed exactly for a row with every field, textual `patient`, `ssn_no` and `copay`, and a non-empty `ssn_no`; the fields read are the row's; an error names a field the mapper reads |
| InvoiceProcess.SpecialtyRxValue | invoice_process.py:111-143 | the columns the literal sets to `None` are `None`, and the `ssn` column is `0` exactly for a masked SSN |
| InvoiceProcess.SpecialtyRxRecord | invoice_process.py:111-143 | the record's keys are the dict literal's, in its order |
| InvoiceProcess.SpecialtyRxLookup | invoice_process.py:111-143 | each key of the record looks up the value the literal gives it |
| InvoiceProcess.MapSpecialtyRx | invoice_process.py:106-145 | the mapper succeeds exactly for a well-formed row; an error names a field the mapper reads |
| InvoiceProcess.SpecialtyRxColumns | invoice_process.py:111-143 | a mapped record's keys are in the dict literal's order and, spelled out, are the INSERT column list |
| InvoiceProcess.SpecialtyRxNullColumns | invoice_process.py:120-142 | `dob`, `gender`, `doctor`, `reject_cd`, `copay_amt`, `census_match_cd`, `status_cd`, `charge_confirmed_flg`, `duplicate_flg`, `request_credit_flg`, `credit_request_dt`, `credit_request_cd` and `days_overbilled` are `None` |
| InvoiceProcess.SpecialtyRxBatchColumns | invoice_process.py:112-116 | the batch, pharmacy, facility, payer-group and invoice-date columns hold the context's values |
| InvoiceProcess.SpecialtyRxDerivedColumns | invoice_process.py:117-133 | the name columns come from the comma split, `ssn` from the SSN rule and `copay_flg` from the copay rule |
| InvoiceProcess.SpecialtyRxRowCopies | invoice_process.py:122-138 | `dispdt`, `rx_otc`, `drug`, `rx_no`, `ndc`, `qty`, `ds`, `billamt` and `comment` are copied unchanged into their columns |
| InvoiceProcess.SpecialtyRxErrorOrder | invoice_process.py:107-109 | a non-text `patient` is reported first; then a missing or empty `ssn_no` comes before any later field |
| CreateFolder.SourceName | create_folder.py:19 | source id 1 is `Portal`, 2 is `Email`, any other id is `General` |
| CreateFolder.DirectoryKey | create_folder.py:20 | a key is non-empty and ends with `/` |
| CreateFolder.DirectoryKeyParts | create_folder.py:20 | split at `/`, a key gives year, month, facility name, source and an empty last piece |
| CreateFolder.MonthComponentIsNumber | create_folder.py:8-20 | the month component is the month's decimal number |
| CreateFolder.DirectoryKeyExample | test_process.py:159 | October 2020 gives `2020/10/Deer Meadows NEW/Portal/`, not the `October` path |
| CreateFolder.SettingKeys | create_folder.py:18-20 | one key per reader setting, in order, each built from that setting's source |
| CreateFolder.FacilityKeys | create_folder.py:13-18 | a facility without a pharmacy map gives no key; otherwise one key per reader setting |
| CreateFolder.FolderKeys | create_folder.py:12-21 | `main` sends one key per reader setting of each mapped facility, and no more |
| CreateFolder.FolderKeysAppend | create_folder.py:12-21 | the keys for two lists of facilities are the first list's followed by the second's |
| CreateFolder.UnmappedFacilitySkipped | create_folder.py:13-15 | a facility without a pharmacy map changes nothing, wherever it stands |
| CreateFolder.FolderKeysShape | create_folder.py:12-21 | every key sent belongs to one reader setting of one mapped facility |
| CreateFolder.Bucket.PutObject | create_folder.py:21 | the key is appended to the bucket's keys |
| CreateFolder.PutSettingKeys | create_folder.py:18-21 | the inner loop appends exactly the setting keys, in order |
| CreateFolder.PutFacilityKeys | create_folder.py:13-21 | one outer iteration appends exactly the facility's keys |
| CreateFolder.CreateFolders | create_folder.py:6-21 | `main` appends exactly the folder keys of all facilities, in iteration order |

## Left out

- I/O and services are outside the model: S3, SQS, SES, the database session and its queries, `send_email` and workbook loading. Their results are parameters: the worksheet, the pharmacy map and reader setting, the facility list, and the lookups `get_pharmacy` and `get_reader_settings`.
- `datetime.now()` is left out: the year and month of `create_folder.py` and the invoice date are inputs. As written, `from utilities import *` rebinds `datetime` to the module that utilities.py:4 imports. So `datetime.now()` raises `AttributeError` at create_folder.py:7 and at invoice_process.py:18. The model follows the evident intent, the current time.
- Sheet selection and the other non-Python fragments of `validate_file` (invoice_process.py:15-29) are left out, because they cannot be given a meaning.
- `start_index` and `size` (invoice_process.py:31-32) are modelled as `DataStartIndex` and `DataEndIndex`. The source never uses them, so the model does not either.
- InvoiceProcess.DataEndIndex: as written, `ws.rows - ...` subtracts from a generator and raises `TypeError`. The model gives the evident intent, the row count less the footer rows. Like the fragments of lines 15-29, the error itself is not modelled.
- `is_valid` is called by `validate_file` but never defined. It is an abstract predicate on row numbers.
- `get_first_name` and `get_last_name` are not defined anywhere. They are modelled as a split at `,` with no trimming, fixed by the four test cases. For the last name the model takes the second piece, so a third piece is dropped.
- `validate_field`, `sqs-poll.py`, `validate.py` and the SQLAlchemy declarations of models.py are not part of this model. Only the columns the core reads are kept, as plain values.
- The `getattr` mapper dispatch, batch logging, `cursor.executemany` and `commit` (invoice_process.py:51-55, 98-101) are left out. `ProcessInvoice` takes the mapper as a parameter.
- In the worksheet model every cell is text or nothing. Numbers and dates in cells are not modelled, so `str(val)` in `clean_text` and truthiness of numeric headers are left out.
- In the mapper, amounts, quantities and dates are opaque values copied unchanged, so no arithmetic on them is modelled.
- Utilities.ParseDate: strptime's `\d` also matches non-ASCII Unicode decimal digits; the model accepts ASCII digits only.
- InvoiceProcess.Upper: `str.upper` is modelled on ASCII letters only, so `CopayFlag` ignores non-ASCII case mappings.
- Text.Strip: whitespace is Python's `str.isspace` set as listed in `Text.IsSpace`; Unicode data beyond that list is not modelled.
- InvoiceProcess.ReadSpecialtyRx: a non-text `patient` is reported as `AttributeError`, the error a string method raises on a non-string. The exact exception of the undefined name helpers is not known.
- `get_reader_settings` returns `.first()`, a single row, yet `create_folder.py` iterates over its result. The model follows the iteration: each pharmacy has a sequence of reader settings.

## Findings

| source | as written | input that shows it | evidently intended | confidence | as-written member | corrected member |
|---|---|---|---|---|---|---|
| invoice_process.py:38 | `for row in range(1, nrows)` visits rows `1..nrows-1`, so `len(data)` never reaches `nrows` and `nrows != len(data)` rejects every sheet with a non-blank first row | any sheet with 3 non-blank rows and `is_valid` true for all of them is rejected | `range(1, nrows + 1)`: a sheet passes exactly when every one of its rows is valid | not executed | InvoiceProcess.AsWrittenRejectsValidSheet | InvoiceProcess.ValidateFileIntended |
| utilities.py:88 | `for col in range(1, ncols)` never checks header `ncols`, so an empty last header still yields `ncols` | header row `patient`, `""`: the result is 2 | `range(1, ncols + 1)`: count the leading non-empty headers (1 here) | not executed | Utilities.ScanSkipsLastHeaderExample | Utilities.GetValidColsCountIntended |
