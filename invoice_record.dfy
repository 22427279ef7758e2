/** The record `_process_row_speciality_rx` builds and the column list of the
    `INSERT INTO pharmacy_invoices` statement it is written with
    (invoice_process.py). A record is a Python dict, so it keeps its keys in
    insertion order. The model relates that key order to the statement's
    column list; how the dicts are bound to the statement is not modelled. */
module InvoiceRecord {
  import opened Wrappers

  /** A cell value after normalization: `None`, text, an integer, or any other
      Python object (a float, a datetime), which the mapper only copies. */
  datatype Value = Nil | Str(text: string) | Int(number: int) | Opaque(tag: nat)

  /** The keys of the record dict. */
  datatype Column =
    | InvoiceBatchId | PharmacyId | FacilityId | PayerGroupId | InvoiceDt
    | FirstNm | LastNm | Ssn | Dob | Gender
    | DispenseDt | ProductCategory | DrugNm | Doctor | RxNbr
    | Ndc | RejectCd | Quantity | DaysSupplied | ChargeAmt
    | CopayAmt | CopayFlg | CensusMatchCd | StatusCd | ChargeConfirmedFlg
    | DuplicateFlg | Note | RequestCreditFlg | CreditRequestDt | CreditRequestCd
    | DaysOverbilled

  /** The number of columns of the record and of the INSERT statement. */
  const ColumnCount := 31

  /** The key at each position of the mapper's dict literal. */
  function ColumnAt(i: nat): Column
    requires i < ColumnCount
  {
    match i
    case 0 => InvoiceBatchId
    case 1 => PharmacyId
    case 2 => FacilityId
    case 3 => PayerGroupId
    case 4 => InvoiceDt
    case 5 => FirstNm
    case 6 => LastNm
    case 7 => Ssn
    case 8 => Dob
    case 9 => Gender
    case 10 => DispenseDt
    case 11 => ProductCategory
    case 12 => DrugNm
    case 13 => Doctor
    case 14 => RxNbr
    case 15 => Ndc
    case 16 => RejectCd
    case 17 => Quantity
    case 18 => DaysSupplied
    case 19 => ChargeAmt
    case 20 => CopayAmt
    case 21 => CopayFlg
    case 22 => CensusMatchCd
    case 23 => StatusCd
    case 24 => ChargeConfirmedFlg
    case 25 => DuplicateFlg
    case 26 => Note
    case 27 => RequestCreditFlg
    case 28 => CreditRequestDt
    case 29 => CreditRequestCd
    case _ => DaysOverbilled
  }

  /** The keys in the order the dict literal lists them. */
  const RecordOrder: seq<Column> := ColumnsFrom(0)

  /** The keys of the dict literal from position `i` on. */
  function ColumnsFrom(i: nat): (cs: seq<Column>)
    requires i <= ColumnCount
    ensures |cs| == ColumnCount - i
    ensures forall k :: 0 <= k < |cs| ==> cs[k] == ColumnAt(i + k)
    decreases ColumnCount - i
  {
    if i == ColumnCount then [] else [ColumnAt(i)] + ColumnsFrom(i + 1)
  }

  /** Where a column stands in the dict literal. */
  function Position(c: Column): (p: nat)
    ensures p < ColumnCount && ColumnAt(p) == c
  {
    match c
      case InvoiceBatchId => 0
      case PharmacyId => 1
      case FacilityId => 2
      case PayerGroupId => 3
      case InvoiceDt => 4
      case FirstNm => 5
      case LastNm => 6
      case Ssn => 7
      case Dob => 8
      case Gender => 9
      case DispenseDt => 10
      case ProductCategory => 11
      case DrugNm => 12
      case Doctor => 13
      case RxNbr => 14
      case Ndc => 15
      case RejectCd => 16
      case Quantity => 17
      case DaysSupplied => 18
      case ChargeAmt => 19
      case CopayAmt => 20
      case CopayFlg => 21
      case CensusMatchCd => 22
      case StatusCd => 23
      case ChargeConfirmedFlg => 24
      case DuplicateFlg => 25
      case Note => 26
      case RequestCreditFlg => 27
      case CreditRequestDt => 28
      case CreditRequestCd => 29
      case DaysOverbilled => 30
  }

  /** Each position holds a different column. */
  lemma PositionOfColumnAt()
    ensures forall i :: 0 <= i < ColumnCount ==> Position(ColumnAt(i)) == i
  {
  }

  /** The dict key each column is spelled with in the mapper. */
  function ColumnName(c: Column): string {
    match c
      case InvoiceBatchId => "invoice_batch_id"
      case PharmacyId => "pharmacy_id"
      case FacilityId => "facility_id"
      case PayerGroupId => "payer_group_id"
      case InvoiceDt => "invoice_dt"
      case FirstNm => "first_nm"
      case LastNm => "last_nm"
      case Ssn => "ssn"
      case Dob => "dob"
      case Gender => "gender"
      case DispenseDt => "dispense_dt"
      case ProductCategory => "product_category"
      case DrugNm => "drug_nm"
      case Doctor => "doctor"
      case RxNbr => "rx_nbr"
      case Ndc => "ndc"
      case RejectCd => "reject_cd"
      case Quantity => "quantity"
      case DaysSupplied => "days_supplied"
      case ChargeAmt => "charge_amt"
      case CopayAmt => "copay_amt"
      case CopayFlg => "copay_flg"
      case CensusMatchCd => "census_match_cd"
      case StatusCd => "status_cd"
      case ChargeConfirmedFlg => "charge_confirmed_flg"
      case DuplicateFlg => "duplicate_flg"
      case Note => "note"
      case RequestCreditFlg => "request_credit_flg"
      case CreditRequestDt => "credit_request_dt"
      case CreditRequestCd => "credit_request_cd"
      case DaysOverbilled => "days_overbilled"
  }

  /** The column at each position of the INSERT statement's column list. */
  function InsertColumn(i: nat): string
    requires i < ColumnCount
  {
    match i
    case 0 => "invoice_batch_id"
    case 1 => "pharmacy_id"
    case 2 => "facility_id"
    case 3 => "payer_group_id"
    case 4 => "invoice_dt"
    case 5 => "first_nm"
    case 6 => "last_nm"
    case 7 => "ssn"
    case 8 => "dob"
    case 9 => "gender"
    case 10 => "dispense_dt"
    case 11 => "product_category"
    case 12 => "drug_nm"
    case 13 => "doctor"
    case 14 => "rx_nbr"
    case 15 => "ndc"
    case 16 => "reject_cd"
    case 17 => "quantity"
    case 18 => "days_supplied"
    case 19 => "charge_amt"
    case 20 => "copay_amt"
    case 21 => "copay_flg"
    case 22 => "census_match_cd"
    case 23 => "status_cd"
    case 24 => "charge_confirmed_flg"
    case 25 => "duplicate_flg"
    case 26 => "note"
    case 27 => "request_credit_flg"
    case 28 => "credit_request_dt"
    case 29 => "credit_request_cd"
    case _ => "days_overbilled"
  }

  const InsertColumns: seq<string> := InsertColumnsFrom(0)

  /** The INSERT statement's columns from position `i` on. */
  function InsertColumnsFrom(i: nat): (cs: seq<string>)
    requires i <= ColumnCount
    ensures |cs| == ColumnCount - i
    ensures forall k :: 0 <= k < |cs| ==> cs[k] == InsertColumn(i + k)
    decreases ColumnCount - i
  {
    if i == ColumnCount then [] else [InsertColumn(i)] + InsertColumnsFrom(i + 1)
  }

  /** One key/value pair of the record dict. */
  datatype Entry = Entry(column: Column, value: Value)

  type Record = seq<Entry>

  /** `record.keys()`. */
  function Keys(rec: Record): (keys: seq<Column>)
    ensures |keys| == |rec|
    ensures forall i :: 0 <= i < |rec| ==> keys[i] == rec[i].column
  {
    if rec == [] then [] else [rec[0].column] + Keys(rec[1..])
  }

  /** The keys as the strings they are spelled with. */
  function Names(keys: seq<Column>): (names: seq<string>)
    ensures |names| == |keys|
    ensures forall i :: 0 <= i < |keys| ==> names[i] == ColumnName(keys[i])
  {
    if keys == [] then [] else [ColumnName(keys[0])] + Names(keys[1..])
  }

  /** Each key of the dict literal is spelled as the INSERT statement's column
      at the same position. */
  lemma ColumnNameMatchesInsert(c: Column)
    ensures ColumnName(c) == InsertColumn(Position(c))
  {
    match c
    case InvoiceBatchId =>
    case PharmacyId =>
    case FacilityId =>
    case PayerGroupId =>
    case InvoiceDt =>
    case FirstNm =>
    case LastNm =>
    case Ssn =>
    case Dob =>
    case Gender =>
    case DispenseDt =>
    case ProductCategory =>
    case DrugNm =>
    case Doctor =>
    case RxNbr =>
    case Ndc =>
    case RejectCd =>
    case Quantity =>
    case DaysSupplied =>
    case ChargeAmt =>
    case CopayAmt =>
    case CopayFlg =>
    case CensusMatchCd =>
    case StatusCd =>
    case ChargeConfirmedFlg =>
    case DuplicateFlg =>
    case Note =>
    case RequestCreditFlg =>
    case CreditRequestDt =>
    case CreditRequestCd =>
    case DaysOverbilled =>
  }

  /** The key at position `i`, spelled out, is the INSERT column at `i`. */
  lemma NameAt(i: nat)
    requires i < ColumnCount
    ensures ColumnName(ColumnAt(i)) == InsertColumn(i)
  {
    PositionOfColumnAt();
    ColumnNameMatchesInsert(ColumnAt(i));
  }

  /** The dict literal's keys, spelled out and in order, are the INSERT
      statement's column list, position for position. */
  lemma RecordOrderMatchesInsert()
    ensures Names(RecordOrder) == InsertColumns
  {
    forall i | 0 <= i < ColumnCount ensures Names(RecordOrder)[i] == InsertColumns[i] {
      NameAt(i);
    }
  }

  /** `record.get(column)`: the value of the first entry with that key. */
  function Get(rec: Record, c: Column): Option<Value> {
    if rec == [] then None
    else if rec[0].column == c then Some(rec[0].value)
    else Get(rec[1..], c)
  }

  predicate DistinctKeys(keys: seq<Column>) {
    forall i, j :: 0 <= i < j < |keys| ==> keys[i] != keys[j]
  }

  /** In a record whose keys are distinct, each entry is what its key looks up. */
  lemma {:induction false} GetAt(rec: Record, i: nat)
    requires DistinctKeys(Keys(rec)) && i < |rec|
    ensures Get(rec, rec[i].column) == Some(rec[i].value)
  {
    if i > 0 {
      assert rec[0].column != rec[i].column by { assert Keys(rec)[0] != Keys(rec)[i]; }
      assert Keys(rec[1..]) == Keys(rec)[1..];
      GetAt(rec[1..], i - 1);
    }
  }

  /** The dict literal names no key twice. */
  lemma RecordOrderDistinct()
    ensures DistinctKeys(RecordOrder)
  {
    PositionOfColumnAt();
    forall i, j | 0 <= i < j < |RecordOrder| ensures RecordOrder[i] != RecordOrder[j] {
      assert Position(RecordOrder[i]) == i && Position(RecordOrder[j]) == j;
    }
  }

  /** A record laid out in the dict literal's order answers each key with the
      entry at that key's position. */
  lemma GetByPosition(rec: Record, c: Column)
    requires Keys(rec) == RecordOrder
    ensures Get(rec, c) == Some(rec[Position(c)].value)
  {
    RecordOrderDistinct();
    assert rec[Position(c)].column == RecordOrder[Position(c)] == c;
    GetAt(rec, Position(c));
  }
}
