/** The sheet-extent and cell helpers of utilities.py: `clean_text`,
    `parse_date`, `get_valid_rows_count`, `get_valid_cols_count` and
    `is_valid_row`. A worksheet is its grid of cell values, row by row; a cell
    holds text or nothing. */
module Utilities {
  import opened Wrappers
  import opened Text

  type Cell = Option<string>
  type Row = seq<Cell>
  type Worksheet = seq<Row>

  // ---------------------------------------------------------------- clean_text

  /** `clean_text(val)`: `None` stays `None`; text loses its surrounding whitespace. */
  function CleanText(val: Option<string>): (r: Option<string>)
    ensures r.None? <==> val.None?
    ensures r.Some? ==> |r.value| <= |val.value|
    ensures r.Some? ==>
              exists i :: 0 <= i <= |val.value| - |r.value| && r.value == val.value[i..i + |r.value|]
                          && AllSpace(val.value[..i]) && AllSpace(val.value[i + |r.value|..])
    ensures r.Some? && r.value != [] ==> !IsSpace(r.value[0]) && !IsSpace(r.value[|r.value| - 1])
  {
    match val
    case None => None
    case Some(s) => Some(Strip(s))
  }

  lemma CleanTextIdempotent(val: Option<string>)
    ensures CleanText(CleanText(val)) == CleanText(val)
  {
    if val.Some? {
      StripIdempotent(val.value);
    }
  }

  // ---------------------------------------------------------------- parse_date

  /** A `datetime.datetime` without time zone or microseconds. */
  datatype DateTime = DateTime(year: int, month: int, day: int, hour: int, minute: int, second: int)

  /** What `parse_date` may be handed: nothing, a datetime the spreadsheet
      library already decoded, or text. */
  datatype DateCell = NoValue | DateTimeValue(stamp: DateTime) | TextValue(text: string)

  predicate IsLeapYear(y: int) {
    y % 4 == 0 && (y % 100 != 0 || y % 400 == 0)
  }

  function DaysInMonth(y: int, m: int): (n: int)
    requires 1 <= m <= 12
    ensures 28 <= n <= 31
  {
    if m == 2 then (if IsLeapYear(y) then 29 else 28)
    else if m == 4 || m == 6 || m == 9 || m == 11 then 30
    else 31
  }

  /** A date `datetime.date` accepts: years 1..9999, proleptic Gregorian. */
  predicate IsCalendarDate(y: int, m: int, d: int) {
    1 <= y <= 9999 && 1 <= m <= 12 && 1 <= d <= DaysInMonth(y, m)
  }

  function Midnight(y: int, m: int, d: int): DateTime {
    DateTime(y, m, d, 0, 0, 0)
  }

  /** What `%m` of `strptime` matches: `[1-9]`, `0[1-9]` or `1[0-2]`. */
  function MonthField(t: string): (m: Option<nat>)
    ensures m.Some? ==> 1 <= m.value <= 12
  {
    if 1 <= |t| <= 2 && AllDigits(t) && 1 <= DigitsValue(t) <= 12 then Some(DigitsValue(t)) else None
  }

  /** What `%d` of `strptime` matches without a space: `[1-9]`, `0[1-9]`, `[12]\d` or `3[01]`. */
  function DayField(t: string): (d: Option<nat>)
    ensures d.Some? ==> 1 <= d.value <= 31
  {
    if 1 <= |t| <= 2 && AllDigits(t) && 1 <= DigitsValue(t) <= 31 then Some(DigitsValue(t)) else None
  }

  /** What `%Y` of `strptime` matches: exactly four digits. */
  function YearField(t: string): (y: Option<nat>)
    ensures y.Some? ==> y.value < 10000
  {
    if |t| == 4 && AllDigits(t) then
      DigitsFixed(t);
      Some(DigitsValue(t))
    else
      None
  }

  /** `val.split(' ')[0]`: the text before the first space character. */
  function FirstToken(s: string): (tok: string)
    ensures ' ' !in tok
  {
    SplitOn(s, ' ')[0]
  }

  /** The first token is the longest prefix without a space: it stops at the
      first space, or takes all of `s` when there is none. */
  lemma FirstTokenPrefix(s: string)
    ensures var tok := FirstToken(s);
            && |tok| <= |s| && tok == s[..|tok|]
            && (|tok| < |s| <==> ' ' in s)
            && (|tok| < |s| ==> s[|tok|] == ' ')
  {
    SplitOnFirstPiece(s, ' ');
  }

  /** The date three `strptime` fields denote, if they are well formed and
      name a real calendar date. */
  function DateOfFields(mt: string, dt: string, yt: string): Option<DateTime> {
    match (MonthField(mt), DayField(dt), YearField(yt))
    case (Some(m), Some(d), Some(y)) =>
      if IsCalendarDate(y, m, d) then Some(Midnight(y, m, d)) else None
    case _ => None
  }

  /** `strptime(tok, '%m/%d/%Y')` with its `ValueError`s as `None`: three
      slash-separated fields, nothing after the year, and a real calendar date. */
  function ParseMonthDayYear(tok: string): (r: Option<DateTime>)
    ensures r.Some? ==> IsCalendarDate(r.value.year, r.value.month, r.value.day)
                        && r.value == Midnight(r.value.year, r.value.month, r.value.day)
    ensures r.Some? ==> |SplitOn(tok, '/')| == 3
  {
    var parts := SplitOn(tok, '/');
    if |parts| != 3 then None else DateOfFields(parts[0], parts[1], parts[2])
  }

  /** `parse_date(val)`: it never raises; every failure is `None`. */
  function ParseDate(val: DateCell): (r: Option<DateTime>)
    ensures val.NoValue? ==> r.None?
    ensures val.DateTimeValue? ==> r == Some(val.stamp)
    ensures val.TextValue? && r.Some? ==>
              IsCalendarDate(r.value.year, r.value.month, r.value.day)
              && r.value == Midnight(r.value.year, r.value.month, r.value.day)
  {
    match val
    case NoValue => None
    case DateTimeValue(dt) => Some(dt)
    case TextValue(s) => ParseMonthDayYear(FirstToken(s))
  }

  /** The spellings `%m` and `%d` accept for a number below 100: two digits,
      zero-padded, and also one digit when the number is below 10. */
  function NumberSpellings(n: nat): set<string> {
    if n < 10 then {FixedDigits(n, 1), FixedDigits(n, 2)} else {FixedDigits(n, 2)}
  }

  /** Every text `M/D/YYYY` that `strptime(..., '%m/%d/%Y')` reads as the date `y-m-d`. */
  function DateSpellings(y: nat, m: nat, d: nat): set<string> {
    set mt, dt | mt in NumberSpellings(m) && dt in NumberSpellings(d) :: mt + "/" + dt + "/" + FixedDigits(y, 4)
  }

  lemma {:induction false} TwoDigitField(t: string, n: nat)
    requires 1 <= n < 100
    ensures (1 <= |t| <= 2 && AllDigits(t) && DigitsValue(t) == n) <==> t in NumberSpellings(n)
  {
    if 1 <= |t| <= 2 && AllDigits(t) && DigitsValue(t) == n {
      DigitsFixed(t);
    }
    if t == FixedDigits(n, 2) {
      FixedDigitsValue(n, 2);
    }
    if n < 10 && t == FixedDigits(n, 1) {
      FixedDigitsValue(n, 1);
    }
  }

  lemma YearFieldExact(t: string, y: nat)
    ensures YearField(t) == Some(y) <==> y < 10000 && t == FixedDigits(y, 4)
  {
    if |t| == 4 && AllDigits(t) {
      DigitsFixed(t);
    }
    if y < 10000 && t == FixedDigits(y, 4) {
      FixedDigitsValue(y, 4);
    }
  }

  /** A text whose three slash-separated fields read as `m`, `d` and `y` is one of
      the spellings of that date. */
  lemma {:induction false} ParsedIsSpelling(tok: string, r: DateTime)
    requires ParseMonthDayYear(tok) == Some(r)
    ensures IsCalendarDate(r.year, r.month, r.day) && r == Midnight(r.year, r.month, r.day)
    ensures tok in DateSpellings(r.year, r.month, r.day)
  {
    var parts := SplitOn(tok, '/');
    JoinSplit(tok, '/');
    assert parts == [parts[0], parts[1], parts[2]];
    JoinThree(parts[0], parts[1], parts[2], '/');
    TwoDigitField(parts[0], r.month);
    TwoDigitField(parts[1], r.day);
    YearFieldExact(parts[2], r.year);
  }

  /** Every spelling of a calendar date parses back to that date. */
  lemma {:induction false} SpellingIsParsed(mt: string, dt: string, y: nat, m: nat, d: nat)
    requires IsCalendarDate(y, m, d)
    requires mt in NumberSpellings(m) && dt in NumberSpellings(d)
    ensures ParseMonthDayYear(mt + "/" + dt + "/" + FixedDigits(y, 4)) == Some(Midnight(y, m, d))
  {
    var yt := FixedDigits(y, 4);
    TwoDigitField(mt, m);
    TwoDigitField(dt, d);
    YearFieldExact(yt, y);
    assert '/' !in mt && '/' !in dt && '/' !in yt;
    TokenFields(mt + "/" + dt + "/" + yt, mt, dt, yt);
  }

  /** A text parses to a date exactly when its first token is `M/D/YYYY` for
      a real calendar date, the month and the day written with one or two
      digits; the result is that date at midnight. */
  lemma ParseDateExact(s: string, r: DateTime)
    ensures ParseDate(TextValue(s)) == Some(r) <==>
              IsCalendarDate(r.year, r.month, r.day)
              && r == Midnight(r.year, r.month, r.day)
              && FirstToken(s) in DateSpellings(r.year, r.month, r.day)
  {
    var tok := FirstToken(s);
    if ParseMonthDayYear(tok) == Some(r) {
      ParsedIsSpelling(tok, r);
    }
    if IsCalendarDate(r.year, r.month, r.day) && r == Midnight(r.year, r.month, r.day)
       && tok in DateSpellings(r.year, r.month, r.day)
    {
      var mt, dt :| mt in NumberSpellings(r.month) && dt in NumberSpellings(r.day)
                    && tok == mt + "/" + dt + "/" + FixedDigits(r.year, 4);
      SpellingIsParsed(mt, dt, r.year, r.month, r.day);
    }
  }

  /** A text without a space is its own first token. */
  lemma FirstTokenWhole(a: string)
    requires ' ' !in a
    ensures FirstToken(a) == a
  {
    IndexOfAbsent(a, ' ');
  }

  lemma FirstTokenOfTokens(a: string, b: string)
    requires ' ' !in a
    ensures FirstToken(a) == a
    ensures FirstToken(a + " " + b) == a
  {
    FirstTokenWhole(a);
    var s := a + " " + b;
    IndexOfAfter(a, ' ', b);
    assert s[..|a|] == a;
  }

  /** Only the text before the first space matters: a time after the date is ignored. */
  lemma ParseDateIgnoresAfterSpace(a: string, b: string)
    requires ' ' !in a
    ensures ParseDate(TextValue(a + " " + b)) == ParseDate(TextValue(a))
  {
    FirstTokenOfTokens(a, b);
  }

  /** A token made of three slash-free fields is parsed field by field. */
  lemma TokenFields(tok: string, mt: string, dt: string, yt: string)
    requires '/' !in mt && '/' !in dt && '/' !in yt
    requires tok == mt + "/" + dt + "/" + yt
    ensures ParseMonthDayYear(tok) == DateOfFields(mt, dt, yt)
  {
    JoinThree(mt, dt, yt, '/');
    SplitJoin([mt, dt, yt], '/');
  }

  lemma TwoDigitsValue(s: string)
    requires |s| == 2 && AllDigits(s)
    ensures DigitsValue(s) == 10 * DigitValue(s[0]) + DigitValue(s[1])
  {
    var p := s[..1];
    assert p[..0] == [] && p[0] == s[0];
    assert DigitsValue(p) == DigitValue(s[0]);
  }

  lemma FourDigitsValue(s: string)
    requires |s| == 4 && AllDigits(s)
    ensures DigitsValue(s) == 1000 * DigitValue(s[0]) + 100 * DigitValue(s[1]) + 10 * DigitValue(s[2]) + DigitValue(s[3])
  {
    var p := s[..2];
    assert s[..3][..2] == p && p[0] == s[0] && p[1] == s[1];
    TwoDigitsValue(p);
  }

  /** A text without a space is parsed whole. */
  lemma ParseDateWhole(s: string)
    requires ' ' !in s
    ensures ParseDate(TextValue(s)) == ParseMonthDayYear(s)
  {
    FirstTokenWhole(s);
  }

  lemma InvoiceDateFields()
    ensures DateOfFields("12", "14", "2020") == Some(Midnight(2020, 12, 14))
  {
    TwoDigitsValue("12");
    TwoDigitsValue("14");
    FourDigitsValue("2020");
  }

  /** The date format of the invoices. */
  lemma ParseDateInvoiceFormat(date: string)
    requires date == "12/14/2020"
    ensures ParseDate(TextValue(date)) == Some(Midnight(2020, 12, 14))
  {
    TokenFields(date, "12", "14", "2020");
    InvoiceDateFields();
    ParseDateWhole(date);
  }

  /** The same date with a time after it. */
  lemma ParseDateWithTime(date: string, time: string)
    requires date == "12/14/2020" && time == "10:30"
    ensures ParseDate(TextValue(date + " " + time)) == Some(Midnight(2020, 12, 14))
  {
    ParseDateInvoiceFormat(date);
    ParseDateIgnoresAfterSpace(date, time);
  }

  lemma LeapDayFields()
    ensures DateOfFields("2", "29", "2020") == Some(Midnight(2020, 2, 29))
    ensures DateOfFields("2", "29", "2019").None?
  {
    TwoDigitsValue("29");
    FourDigitsValue("2020");
    FourDigitsValue("2019");
  }

  /** February 29 exists in 2020. */
  lemma ParseDateLeapDay(leap: string)
    requires leap == "2/29/2020"
    ensures ParseDate(TextValue(leap)) == Some(Midnight(2020, 2, 29))
  {
    TokenFields(leap, "2", "29", "2020");
    LeapDayFields();
    ParseDateWhole(leap);
  }

  /** February 29 does not exist in 2019. */
  lemma ParseDateCommonYear(common: string)
    requires common == "2/29/2019"
    ensures ParseDate(TextValue(common)).None?
  {
    TokenFields(common, "2", "29", "2019");
    LeapDayFields();
    ParseDateWhole(common);
  }

  lemma BadFields()
    ensures DateOfFields("13", "01", "2020").None?
    ensures DateOfFields("12", "14", "20").None?
  {
    TwoDigitsValue("13");
  }

  /** A month above 12 is refused. */
  lemma ParseDateRejectsMonth(badMonth: string)
    requires badMonth == "13/01/2020"
    ensures ParseDate(TextValue(badMonth)).None?
  {
    TokenFields(badMonth, "13", "01", "2020");
    BadFields();
    ParseDateWhole(badMonth);
  }

  /** A two-digit year is refused. */
  lemma ParseDateRejectsShortYear(shortYear: string)
    requires shortYear == "12/14/20"
    ensures ParseDate(TextValue(shortYear)).None?
  {
    TokenFields(shortYear, "12", "14", "20");
    BadFields();
    ParseDateWhole(shortYear);
  }

  /** ISO order, with dashes, is refused. */
  lemma ParseDateRejectsIso(iso: string)
    requires iso == "2020-12-14"
    ensures ParseDate(TextValue(iso)).None?
  {
    SplitJoin([iso], '/');
    ParseDateWhole(iso);
  }

  // ------------------------------------------------------ get_valid_rows_count

  /** `c.value is None or str(c.value).strip() == ''`. */
  predicate IsBlankCell(c: Cell) {
    c.None? || Strip(c.value) == ""
  }

  /** `all(...)` over the row's cells: a row with no cells is blank. */
  predicate IsBlankRow(row: Row) {
    forall k :: 0 <= k < |row| ==> IsBlankCell(row[k])
  }

  /** The number of rows before the first blank row, or all of them. */
  function LeadingRowCount(ws: Worksheet): (n: nat)
    ensures n <= |ws|
    ensures forall i :: 0 <= i < n ==> !IsBlankRow(ws[i])
    ensures n < |ws| ==> IsBlankRow(ws[n])
  {
    if ws == [] || IsBlankRow(ws[0]) then
      0
    else
      var m := LeadingRowCount(ws[1..]);
      assert forall i :: 1 <= i <= m && i < |ws| ==> ws[i] == ws[1..][i - 1];
      1 + m
  }

  /** The three properties of `LeadingRowCount` determine it. */
  lemma {:induction false} LeadingRowCountUnique(ws: Worksheet, n: nat)
    requires n <= |ws|
    requires forall i :: 0 <= i < n ==> !IsBlankRow(ws[i])
    requires n < |ws| ==> IsBlankRow(ws[n])
    ensures LeadingRowCount(ws) == n
  {
    if n > 0 {
      var tail := ws[1..];
      forall i | 0 <= i < n - 1 ensures !IsBlankRow(tail[i]) {
        assert tail[i] == ws[i + 1];
      }
      assert n - 1 < |tail| ==> tail[n - 1] == ws[n];
      LeadingRowCountUnique(tail, n - 1);
    }
  }

  /** Rows after the first blank row never matter: trailing artifacts are discarded. */
  lemma TrailingRowsIgnored(ws: Worksheet, rest: Worksheet)
    requires LeadingRowCount(ws) < |ws|
    ensures LeadingRowCount(ws + rest) == LeadingRowCount(ws)
  {
    var n := LeadingRowCount(ws);
    assert forall i :: 0 <= i <= n ==> (ws + rest)[i] == ws[i];
    LeadingRowCountUnique(ws + rest, n);
  }

  /** `get_valid_rows_count(ws)`: enumerate the rows from 1 and return the
      index before the first blank one; with no blank row, `ws.max_row`. */
  /** `ws.max_row`: the number of rows, and 1 for a sheet with no cell,
      since openpyxl reports the first row of an empty sheet as in use. */
  function MaxRow(ws: Worksheet): nat {
    if ws == [] then 1 else |ws|
  }

  /** What `get_valid_rows_count` returns: the rows before the first blank
      one, or `ws.max_row` when no row is blank. Iterating an empty sheet
      yields no row, so that sheet gives 1, not 0. */
  function ValidRowsCount(ws: Worksheet): (n: nat)
    ensures ws == [] ==> n == 1
    ensures ws != [] ==> n == LeadingRowCount(ws)
    ensures n <= MaxRow(ws)
    ensures forall i :: 0 <= i < n && i < |ws| ==> !IsBlankRow(ws[i])
    ensures n < |ws| ==> IsBlankRow(ws[n])
  {
    var m := LeadingRowCount(ws);
    if m < |ws| then m else MaxRow(ws)
  }

  /** `get_valid_rows_count`: enumerate the rows from 1 and stop before the
      first blank one. */
  method GetValidRowsCount(ws: Worksheet) returns (n: nat)
    ensures n == ValidRowsCount(ws)
  {
    var maxRow := 1;
    while maxRow <= |ws|
      invariant 1 <= maxRow <= |ws| + 1
      invariant forall i :: 0 <= i < maxRow - 1 ==> !IsBlankRow(ws[i])
    {
      if IsBlankRow(ws[maxRow - 1]) {
        LeadingRowCountUnique(ws, maxRow - 1);
        return maxRow - 1;
      }
      maxRow := maxRow + 1;
    }
    LeadingRowCountUnique(ws, |ws|);
    return MaxRow(ws);
  }

  // ------------------------------------------------------ get_valid_cols_count

  /** Python truthiness of a text cell: `None` and `''` are false. */
  predicate IsTruthy(c: Cell) {
    c.Some? && c.value != ""
  }

  /** The length of the longest row. */
  function Widest(ws: Worksheet): (w: nat)
    ensures forall i :: 0 <= i < |ws| ==> |ws[i]| <= w
    ensures ws != [] ==> exists i :: 0 <= i < |ws| && |ws[i]| == w
  {
    if ws == [] then 0
    else
      var w := Widest(ws[1..]);
      if |ws[0]| >= w then |ws[0]| else w
  }

  /** `ws.max_column`: the widest row, and 1 for a sheet with no cells. */
  function MaxColumn(ws: Worksheet): (n: nat)
    ensures n >= 1
    ensures forall i :: 0 <= i < |ws| ==> |ws[i]| <= n
    ensures n == 1 || exists i :: 0 <= i < |ws| && |ws[i]| == n
  {
    if Widest(ws) == 0 then 1 else Widest(ws)
  }

  /** `ws.cell(1, col).value`: cells beyond the first row's end are empty. */
  function HeaderCell(ws: Worksheet, col: int): Cell {
    if |ws| > 0 && 1 <= col <= |ws[0]| then ws[0][col - 1] else None
  }

  /** The first column in `lo..hi-1` whose header is falsy, or `hi`. */
  function FirstFalsyHeader(ws: Worksheet, lo: nat, hi: nat): (col: nat)
    requires lo <= hi
    ensures lo <= col <= hi
    ensures forall c :: lo <= c < col ==> IsTruthy(HeaderCell(ws, c))
    ensures col < hi ==> !IsTruthy(HeaderCell(ws, col))
    decreases hi - lo
  {
    if lo == hi then hi
    else if !IsTruthy(HeaderCell(ws, lo)) then lo
    else FirstFalsyHeader(ws, lo + 1, hi)
  }

  /** The count `get_valid_cols_count` returns: it tries columns
      `1..max_column-1`, answers `col - 1` at the first falsy header and
      `max_column` when none of those is falsy. */
  function ScannedColsCount(ws: Worksheet): (n: nat)
    ensures n <= MaxColumn(ws)
    ensures n == MaxColumn(ws) <==> forall c :: 1 <= c < MaxColumn(ws) ==> IsTruthy(HeaderCell(ws, c))
    ensures n < MaxColumn(ws) ==>
              n + 1 < MaxColumn(ws) && !IsTruthy(HeaderCell(ws, n + 1))
              && forall c :: 1 <= c <= n ==> IsTruthy(HeaderCell(ws, c))
  {
    var ncols := MaxColumn(ws);
    var col := FirstFalsyHeader(ws, 1, ncols);
    if col < ncols then col - 1 else ncols
  }

  /** `get_valid_cols_count(ws)`, as written: the loop runs over `range(1, ncols)`. */
  method GetValidColsCount(ws: Worksheet) returns (n: nat)
    ensures n == ScannedColsCount(ws)
  {
    var ncols := MaxColumn(ws);
    var col := 1;
    while col < ncols
      invariant 1 <= col <= ncols
      invariant forall c :: 1 <= c < col ==> IsTruthy(HeaderCell(ws, c))
    {
      if !IsTruthy(HeaderCell(ws, col)) {
        return col - 1;
      }
      col := col + 1;
    }
    return ncols;
  }

  /** The count the header scan is evidently meant to give: the number of
      leading truthy header cells among all `max_column` columns. */
  function LeadingHeaderCount(ws: Worksheet): (n: nat)
    ensures n <= MaxColumn(ws)
    ensures forall c :: 1 <= c <= n ==> IsTruthy(HeaderCell(ws, c))
    ensures n < MaxColumn(ws) ==> !IsTruthy(HeaderCell(ws, n + 1))
  {
    FirstFalsyHeader(ws, 1, MaxColumn(ws) + 1) - 1
  }

  /** `get_valid_cols_count(ws)` with the loop over `range(1, ncols + 1)`. */
  method GetValidColsCountIntended(ws: Worksheet) returns (n: nat)
    ensures n == LeadingHeaderCount(ws)
  {
    var ncols := MaxColumn(ws);
    var col := 1;
    while col < ncols + 1
      invariant 1 <= col <= ncols + 1
      invariant forall c :: 1 <= c < col ==> IsTruthy(HeaderCell(ws, c))
    {
      if !IsTruthy(HeaderCell(ws, col)) {
        return col - 1;
      }
      col := col + 1;
    }
    return ncols;
  }

  /** The scan as written disagrees with the intended count exactly when every
      header but the last is present and the last one is empty: the last column
      is never checked. */
  lemma ScanSkipsLastHeader(ws: Worksheet)
    ensures ScannedColsCount(ws) != LeadingHeaderCount(ws) <==>
              (forall c :: 1 <= c < MaxColumn(ws) ==> IsTruthy(HeaderCell(ws, c)))
              && !IsTruthy(HeaderCell(ws, MaxColumn(ws)))
  {
    var ncols := MaxColumn(ws);
    var n := LeadingHeaderCount(ws);
    if forall c :: 1 <= c < ncols ==> IsTruthy(HeaderCell(ws, c)) {
      if IsTruthy(HeaderCell(ws, ncols)) {
        assert n == ncols;
      } else {
        assert n == ncols - 1;
      }
    } else {
      var bad :| 1 <= bad < ncols && !IsTruthy(HeaderCell(ws, bad));
      assert n < bad;
    }
  }

  /** A two-column sheet whose second header is empty: the scan reports two
      columns, the intended count is one. */
  lemma ScanSkipsLastHeaderExample(ws: Worksheet)
    requires ws == [[Some("patient"), Some("")]]
    ensures ScannedColsCount(ws) == 2
    ensures LeadingHeaderCount(ws) == 1
  {
    assert Widest(ws) == 2;
    assert IsTruthy(HeaderCell(ws, 1)) && !IsTruthy(HeaderCell(ws, 2));
    ScanSkipsLastHeader(ws);
  }

  /** A cell holding only whitespace is truthy, which is what the column scan
      tests, and blank, which is what the row scan tests. */
  lemma WhitespaceCell(s: string)
    requires s != "" && AllSpace(s)
    ensures IsTruthy(Some(s)) && IsBlankCell(Some(s))
  {
  }

  /** A whitespace-only header: the column scan counts it as present, while
      the row scan stops at its row as blank. */
  lemma WhitespaceHeader(ws: Worksheet)
    requires ws == [[Some(" ")]]
    ensures IsTruthy(HeaderCell(ws, 1)) && IsBlankCell(ws[0][0])
    ensures ScannedColsCount(ws) == 1 && LeadingHeaderCount(ws) == 1
    ensures LeadingRowCount(ws) == 0
  {
    assert AllSpace(" ");
    WhitespaceCell(" ");
    assert Widest(ws) == 1;
  }

  // -------------------------------------------------------------- is_valid_row

  /** `is_valid_row(row)` accepts every row. */
  function IsValidRow(row: Row): (ok: bool)
    ensures ok
  {
    true
  }
}
