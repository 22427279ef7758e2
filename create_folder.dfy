/** create_folder.py: one S3 "folder" key, `year/month/facility/source/`, per
    reader setting of every facility that has a pharmacy. The clock, the
    database queries and the S3 client are outside; they come in as the
    current year and month, two lookup functions and a bucket object that
    records the keys it is sent. */
module CreateFolder {
  import opened Wrappers
  import opened Text
  import opened Models

  /** The channel name of an invoice source id. */
  function SourceName(invoiceSourceId: int): (name: string)
    ensures name == "Portal" <==> invoiceSourceId == 1
    ensures name == "Email" <==> invoiceSourceId == 2
    ensures name == "General" <==> invoiceSourceId != 1 && invoiceSourceId != 2
  {
    if invoiceSourceId == 1 then "Portal" else if invoiceSourceId == 2 then "Email" else "General"
  }

  /** `f"{year}/{month}/{facility_nm}/{source}/"`: integers in decimal. */
  function DirectoryKey(year: nat, month: nat, facilityNm: string, source: string): (key: string)
    ensures |key| > 0 && key[|key| - 1] == '/'
  {
    DecimalString(year) + "/" + DecimalString(month) + "/" + facilityNm + "/" + source + "/"
  }

  /** A key is `Join` of its components and an empty last piece. */
  lemma DirectoryKeyJoin(year: nat, month: nat, facilityNm: string, source: string)
    ensures Join([DecimalString(year), DecimalString(month), facilityNm, source, ""], '/')
            == DirectoryKey(year, month, facilityNm, source)
  {
    JoinFive(DecimalString(year), DecimalString(month), facilityNm, source, "", '/');
  }

  lemma JoinFive(a: string, b: string, d: string, e: string, f: string, c: char)
    ensures Join([a, b, d, e, f], c) == a + [c] + b + [c] + d + [c] + e + [c] + f
  {
    var parts := [a, b, d, e, f];
    assert parts[1..] == [b, d, e, f];
    assert parts[1..][1..] == [d, e, f];
    JoinThree(d, e, f, c);
  }

  lemma DigitsHaveNoSlash(s: string)
    requires AllDigits(s)
    ensures '/' !in s
  {
  }

  /** A key is its four components, each followed by `/`: splitting it at
      `/` gives them back, when the facility name contains no `/`. */
  lemma DirectoryKeyParts(year: nat, month: nat, facilityNm: string, source: string)
    requires '/' !in facilityNm && '/' !in source
    ensures SplitOn(DirectoryKey(year, month, facilityNm, source), '/')
            == [DecimalString(year), DecimalString(month), facilityNm, source, ""]
  {
    var parts := [DecimalString(year), DecimalString(month), facilityNm, source, ""];
    DigitsHaveNoSlash(parts[0]);
    DigitsHaveNoSlash(parts[1]);
    assert forall k :: 0 <= k < |parts| ==> '/' !in parts[k];
    SplitJoin(parts, '/');
    DirectoryKeyJoin(year, month, facilityNm, source);
  }

  /** The month component is the month's decimal number, never its name. */
  lemma MonthComponentIsNumber(year: nat, month: nat, facilityNm: string, source: string)
    requires '/' !in facilityNm && '/' !in source
    ensures var month' := SplitOn(DirectoryKey(year, month, facilityNm, source), '/')[1];
            AllDigits(month') && DigitsValue(month') == month
  {
    DirectoryKeyParts(year, month, facilityNm, source);
    DecimalRoundTrip(month);
  }

  lemma Decimal2020()
    ensures DecimalString(2020) == "2020"
  {
    assert DecimalString(2) == "2";
    assert DecimalString(20) == "20";
    assert DecimalString(202) == "202";
  }

  lemma Decimal10()
    ensures DecimalString(10) == "10"
  {
    assert DecimalString(1) == "1";
  }

  /** October 2020 at the Deer Meadows facility, through the portal: the
      month is written `10`, so the key is not the `October` path. */
  lemma DirectoryKeyExample(key: string, named: string)
    requires key == DirectoryKey(2020, 10, "Deer Meadows NEW", "Portal")
    requires named == "2020/October/Deer Meadows NEW/Portal/"
    ensures SplitOn(key, '/') == ["2020", "10", "Deer Meadows NEW", "Portal", ""]
    ensures key != named
  {
    Decimal2020();
    Decimal10();
    DirectoryKeyParts(2020, 10, "Deer Meadows NEW", "Portal");
    assert |key| == 32;
  }

  /** The keys for one facility's reader settings, one per setting, in order. */
  function SettingKeys(year: nat, month: nat, facilityNm: string, settings: seq<ReaderSetting>): (keys: seq<string>)
    ensures |keys| == |settings|
    ensures forall k :: 0 <= k < |settings| ==>
              keys[k] == DirectoryKey(year, month, facilityNm, SourceName(settings[k].invoiceSourceId))
  {
    if settings == [] then []
    else
      var n := |settings| - 1;
      SettingKeys(year, month, facilityNm, settings[..n])
        + [DirectoryKey(year, month, facilityNm, SourceName(settings[n].invoiceSourceId))]
  }

  /** The keys one facility contributes: none without a pharmacy map. */
  function FacilityKeys(year: nat, month: nat, facility: Facility,
                        pharmacyOf: Facility -> Option<FacilityPharmacyMap>,
                        settingsOf: Pharmacy -> seq<ReaderSetting>): (keys: seq<string>)
    ensures pharmacyOf(facility).None? ==> keys == []
    ensures pharmacyOf(facility).Some? ==> |keys| == |settingsOf(pharmacyOf(facility).value.pharmacy)|
  {
    match pharmacyOf(facility)
    case None => []
    case Some(m) => SettingKeys(year, month, facility.facilityNm, settingsOf(m.pharmacy))
  }

  /** How many reader settings the mapped facilities have between them. */
  function SettingCount(facilities: seq<Facility>,
                        pharmacyOf: Facility -> Option<FacilityPharmacyMap>,
                        settingsOf: Pharmacy -> seq<ReaderSetting>): nat
  {
    if facilities == [] then 0
    else
      (match pharmacyOf(facilities[0])
       case None => 0
       case Some(m) => |settingsOf(m.pharmacy)|)
      + SettingCount(facilities[1..], pharmacyOf, settingsOf)
  }

  /** The keys `main` sends, facility by facility: one per reader setting of
      each mapped facility. */
  function FolderKeys(year: nat, month: nat, facilities: seq<Facility>,
                      pharmacyOf: Facility -> Option<FacilityPharmacyMap>,
                      settingsOf: Pharmacy -> seq<ReaderSetting>): (keys: seq<string>)
    ensures |keys| == SettingCount(facilities, pharmacyOf, settingsOf)
  {
    if facilities == [] then []
    else FacilityKeys(year, month, facilities[0], pharmacyOf, settingsOf)
           + FolderKeys(year, month, facilities[1..], pharmacyOf, settingsOf)
  }

  /** Processing two lists of facilities one after the other sends the keys
      of the first, then those of the second. */
  lemma {:induction false} FolderKeysAppend(year: nat, month: nat, front: seq<Facility>, back: seq<Facility>,
                                            pharmacyOf: Facility -> Option<FacilityPharmacyMap>,
                                            settingsOf: Pharmacy -> seq<ReaderSetting>)
    ensures FolderKeys(year, month, front + back, pharmacyOf, settingsOf)
            == FolderKeys(year, month, front, pharmacyOf, settingsOf) + FolderKeys(year, month, back, pharmacyOf, settingsOf)
  {
    if front == [] {
      assert front + back == back;
    } else {
      assert (front + back)[0] == front[0];
      assert (front + back)[1..] == front[1..] + back;
      FolderKeysAppend(year, month, front[1..], back, pharmacyOf, settingsOf);
    }
  }

  /** A facility without a pharmacy map changes nothing, wherever it stands. */
  lemma UnmappedFacilitySkipped(year: nat, month: nat, front: seq<Facility>, facility: Facility, back: seq<Facility>,
                                pharmacyOf: Facility -> Option<FacilityPharmacyMap>,
                                settingsOf: Pharmacy -> seq<ReaderSetting>)
    requires pharmacyOf(facility).None?
    ensures FolderKeys(year, month, front + [facility] + back, pharmacyOf, settingsOf)
            == FolderKeys(year, month, front + back, pharmacyOf, settingsOf)
  {
    var rest := [facility] + back;
    assert front + [facility] + back == front + rest;
    assert rest[0] == facility && rest[1..] == back;
    assert FolderKeys(year, month, rest, pharmacyOf, settingsOf) == FolderKeys(year, month, back, pharmacyOf, settingsOf);
    FolderKeysAppend(year, month, front, rest, pharmacyOf, settingsOf);
    FolderKeysAppend(year, month, front, back, pharmacyOf, settingsOf);
  }

  /** Every key sent is the key of one reader setting of one mapped facility. */
  lemma {:induction false} FolderKeysShape(year: nat, month: nat, facilities: seq<Facility>,
                                           pharmacyOf: Facility -> Option<FacilityPharmacyMap>,
                                           settingsOf: Pharmacy -> seq<ReaderSetting>, key: string)
    requires key in FolderKeys(year, month, facilities, pharmacyOf, settingsOf)
    ensures exists f, rs :: f in facilities && pharmacyOf(f).Some? && rs in settingsOf(pharmacyOf(f).value.pharmacy)
                            && key == DirectoryKey(year, month, f.facilityNm, SourceName(rs.invoiceSourceId))
  {
    var f := facilities[0];
    var keys := FacilityKeys(year, month, f, pharmacyOf, settingsOf);
    if key in keys {
      var settings := settingsOf(pharmacyOf(f).value.pharmacy);
      var k :| 0 <= k < |keys| && keys[k] == key;
      assert settings[k] in settings;
    } else {
      FolderKeysShape(year, month, facilities[1..], pharmacyOf, settingsOf, key);
      var g, rs :| g in facilities[1..] && pharmacyOf(g).Some? && rs in settingsOf(pharmacyOf(g).value.pharmacy)
                   && key == DirectoryKey(year, month, g.facilityNm, SourceName(rs.invoiceSourceId));
      assert g in facilities;
    }
  }

  /** The bucket: the keys `put_object` has been sent, in order. */
  class Bucket {
    var keys: seq<string>

    constructor ()
      ensures keys == []
    {
      keys := [];
    }

    /** `put_object(Bucket=..., Key=key)`. */
    method PutObject(key: string)
      modifies this
      ensures keys == old(keys) + [key]
    {
      keys := keys + [key];
    }
  }

  lemma SettingKeysStep(year: nat, month: nat, facilityNm: string, settings: seq<ReaderSetting>, j: nat)
    requires j < |settings|
    ensures SettingKeys(year, month, facilityNm, settings[..j + 1])
            == SettingKeys(year, month, facilityNm, settings[..j])
               + [DirectoryKey(year, month, facilityNm, SourceName(settings[j].invoiceSourceId))]
  {
    assert settings[..j + 1][..j] == settings[..j];
  }

  lemma FolderKeysStep(initial: seq<string>, year: nat, month: nat, facilities: seq<Facility>, i: nat,
                       pharmacyOf: Facility -> Option<FacilityPharmacyMap>,
                       settingsOf: Pharmacy -> seq<ReaderSetting>)
    requires i < |facilities|
    ensures initial + FolderKeys(year, month, facilities[..i + 1], pharmacyOf, settingsOf)
            == (initial + FolderKeys(year, month, facilities[..i], pharmacyOf, settingsOf))
               + FacilityKeys(year, month, facilities[i], pharmacyOf, settingsOf)
  {
    assert facilities[..i + 1] == facilities[..i] + [facilities[i]];
    FolderKeysAppend(year, month, facilities[..i], [facilities[i]], pharmacyOf, settingsOf);
    assert FolderKeys(year, month, [facilities[i]], pharmacyOf, settingsOf)
        == FacilityKeys(year, month, facilities[i], pharmacyOf, settingsOf);
  }

  /** The inner loop of `main`: one `put_object` per reader setting. */
  method PutSettingKeys(bucket: Bucket, year: nat, month: nat, facilityNm: string, readerSettings: seq<ReaderSetting>)
    modifies bucket
    ensures bucket.keys == old(bucket.keys) + SettingKeys(year, month, facilityNm, readerSettings)
  {
    var j := 0;
    while j < |readerSettings|
      invariant 0 <= j <= |readerSettings|
      invariant bucket.keys == old(bucket.keys) + SettingKeys(year, month, facilityNm, readerSettings[..j])
    {
      var rs := readerSettings[j];
      var source := SourceName(rs.invoiceSourceId);
      var directoryName := DirectoryKey(year, month, facilityNm, source);
      bucket.PutObject(directoryName);
      SettingKeysStep(year, month, facilityNm, readerSettings, j);
      j := j + 1;
    }
    assert readerSettings[..j] == readerSettings;
  }

  /** One iteration of the outer loop of `main`: skip a facility without a
      pharmacy map, otherwise send its settings' keys. */
  method PutFacilityKeys(bucket: Bucket, year: nat, month: nat, facility: Facility,
                         pharmacyOf: Facility -> Option<FacilityPharmacyMap>,
                         settingsOf: Pharmacy -> seq<ReaderSetting>)
    modifies bucket
    ensures bucket.keys == old(bucket.keys) + FacilityKeys(year, month, facility, pharmacyOf, settingsOf)
  {
    var pharmacyMap := pharmacyOf(facility);
    if pharmacyMap.Some? {
      var pharmacy := pharmacyMap.value.pharmacy;
      var readerSettings := settingsOf(pharmacy);
      PutSettingKeys(bucket, year, month, facility.facilityNm, readerSettings);
    }
  }

  /** `main`: for each facility with a pharmacy map, one `put_object` per
      reader setting of its pharmacy. */
  method CreateFolders(bucket: Bucket, year: nat, month: nat, facilities: seq<Facility>,
                       pharmacyOf: Facility -> Option<FacilityPharmacyMap>,
                       settingsOf: Pharmacy -> seq<ReaderSetting>)
    modifies bucket
    ensures bucket.keys == old(bucket.keys) + FolderKeys(year, month, facilities, pharmacyOf, settingsOf)
  {
    var i := 0;
    while i < |facilities|
      invariant 0 <= i <= |facilities|
      invariant bucket.keys == old(bucket.keys) + FolderKeys(year, month, facilities[..i], pharmacyOf, settingsOf)
    {
      PutFacilityKeys(bucket, year, month, facilities[i], pharmacyOf, settingsOf);
      FolderKeysStep(old(bucket.keys), year, month, facilities, i, pharmacyOf, settingsOf);
      i := i + 1;
    }
    assert facilities[..i] == facilities;
  }
}
