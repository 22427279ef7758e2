/** The three database entities the core reads (models.py), reduced to the
    columns the core looks at. They are plain values here: the core never
    writes them. */
module Models {
  import opened Wrappers

  /** A row of `facilities`; the core reads its id and its name. */
  datatype Facility = Facility(id: int, facilityNm: string)

  /** A row of `pharmacies`. */
  datatype Pharmacy = Pharmacy(id: int, pharmacyNm: string)

  /** A row of `facility_pharmacy_maps` with its `pharmacy` relationship loaded. */
  datatype FacilityPharmacyMap = FacilityPharmacyMap(facilityId: int, pharmacyId: int, pharmacy: Pharmacy)

  /** A row of `pharmacy_invoice_reader_settings`: which channel a pharmacy's
      invoices arrive by and how its sheet is laid out. */
  datatype ReaderSetting = ReaderSetting(
    id: int,
    pharmacyId: int,
    invoiceSourceId: int,
    sheetName: Option<string>,
    headerRowIndex: int,
    skipRowsAfterHeader: int,
    skipEndingRows: int)
}
