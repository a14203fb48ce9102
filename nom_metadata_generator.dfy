/**
 * The natural-organic-matter (NOM) generator: the SRFA calibration
 * records, the precedence that decides which calibration IDs an analysis
 * uses, the NomAnalysis record, the processed-data directory scan and the
 * pruning of data objects after a failed quality check.
 */
module NomMetadata {
  import opened Common
  import opened Frames
  import opened IdPool
  import opened MetadataGenerator
  import opened AnalysisIds

  const NomAnalysisType: string := "nmdc:NomAnalysis"

  /** The constants a NOM generator (direct-infusion or LC) fixes for its records. */
  datatype NomSettings = NomSettings(
    rawDataCategory: string, rawDataObjectType: string, rawDataObjectDesc: string, rawDataUrl: string,
    calibrationStandard: string,
    processedDataCategory: string, processedDataObjectType: string, processedDataObjectDesc: string,
    processDataUrl: string,
    workflowParamDataCategory: string, workflowParamDataObjectType: string, workflowParamDataObjectDesc: string,
    qcProcessDataObjType: string, qcProcessDataDescription: string)

  // ---------------------------------------------------------------------
  // generate_calibration
  // ---------------------------------------------------------------------

  /** The CalibrationInformation record of an external SRFA calibration run. */
  function SrfaCalibrationRecord(id: string, objectName: string, objectId: string): (r: Row)
    ensures "id" in r && r["id"] == Str(id)
    ensures "calibration_object" in r && r["calibration_object"] == Str(objectId)
    ensures "internal_calibration" in r && r["internal_calibration"] == Bool(false)
    ensures "calibration_target" in r && r["calibration_target"] == Str("mass_charge_ratio")
    ensures "calibration_standard" in r && r["calibration_standard"] == Str("srfa")
  {
    map[
      "id" := Str(id),
      "type" := Str(CalibrationInformationType),
      "name" := Str("SRFA calibration (" + objectName + ")"),
      "description" := Str("FT-ICR SRFA calibration run (" + objectName + ")."),
      "internal_calibration" := Bool(false),
      "calibration_target" := Str("mass_charge_ratio"),
      "calibration_standard" := Str("srfa"),
      "calibration_object" := Str(objectId)
    ]
  }

  /**
   * `generate_calibration` on one pool: ValueError without touching the pool
   * unless the calibration is SRFA and external; otherwise one ID from the
   * CalibrationInformation pool and the record around it.
   */
  function SrfaCalibration(pool: seq<string>, threshold: nat, refill: Refill, srfa: bool, internal: bool,
                           objectName: string, objectId: string): (r: (Result<Row>, seq<string>))
    ensures !(srfa && !internal) ==> r == (Err(Error(ValueError, [])), pool)
    ensures srfa && !internal ==> r.1 == TakeId(CalibrationInformationType, pool, threshold, refill).1
    ensures r.0.Ok? ==>
      srfa && !internal
      && exists id :: (TakeId(CalibrationInformationType, pool, threshold, refill).0 == Ok(id)
                      && r.0.value == SrfaCalibrationRecord(id, objectName, objectId))
  {
    if !(srfa && !internal) then (Err(Error(ValueError, [])), pool)
    else
      var taken := TakeId(CalibrationInformationType, pool, threshold, refill);
      match taken.0
      case Ok(id) => (Ok(SrfaCalibrationRecord(id, objectName, objectId)), taken.1)
      case Err(e) => (Err(e), taken.1)
  }

  method GenerateSrfaCalibration(pool: IDPool, mint: Minter, objectName: string, objectId: string,
                                 srfa: bool, internal: bool)
    returns (r: Result<Row>)
    modifies pool
    ensures (r, pool.Pool(CalibrationInformationType))
      == SrfaCalibration(old(pool.Pool(CalibrationInformationType)), pool.refillThreshold,
                         DefaultRefill(mint, CalibrationInformationType, pool.poolSize), srfa, internal,
                         objectName, objectId)
    ensures forall u :: u != CalibrationInformationType ==> pool.Pool(u) == old(pool.Pool(u))
  {
    if !(srfa && !internal) {
      return Err(Error(ValueError, []));
    }
    var before := pool.Pool(CalibrationInformationType);
    var id, _ := pool.GetId(CalibrationInformationType, mint);
    r := SrfaCalibration(before, pool.refillThreshold, DefaultRefill(mint, CalibrationInformationType, pool.poolSize),
                         srfa, internal, objectName, objectId).0;
  }

  // ---------------------------------------------------------------------
  // get_calibration_ids and get_srfa_ids
  // ---------------------------------------------------------------------

  /**
   * What the two searches of a lookup give: the `id` of the first calibration
   * record found, or the exception the searches (or the indexing of an empty
   * result) raised.
   */
  type Search = string -> Result<string>

  /** Whether an exception is one of the two that mean "not found". */
  predicate NotFound(e: Error)
  {
    e.kind == ValueError || e.kind == IndexError
  }

  /**
   * `get_calibration_ids` on the search outcome for a file's checksum: the
   * ID, or ValueError when nothing was found and RuntimeError for any other
   * failure.
   */
  function ReferenceLookup(found: Result<string>): (r: Result<string>)
    ensures found.Ok? ==> r == found
    ensures found.Err? ==> r.Err? && (r.error.kind == ValueError <==> NotFound(found.error))
    ensures r.Err? ==> r.error.kind in {ValueError, RuntimeError}
  {
    match found
    case Ok(id) => Ok(id)
    case Err(e) => if NotFound(e) then Err(Error(ValueError, [])) else Err(Error(RuntimeError, []))
  }

  /**
   * `get_srfa_ids` on the search outcome for an SRFA file name: the ID, None
   * when nothing was found, and RuntimeError for any other failure.
   */
  function SrfaLookup(found: Result<string>): (r: Result<Option<string>>)
    ensures found.Ok? ==> r == Ok(Some(found.value))
    ensures found.Err? && NotFound(found.error) ==> r == Ok(None)
    ensures r.Err? ==> r.error.kind == RuntimeError
  {
    match found
    case Ok(id) => Ok(Some(id))
    case Err(e) => if NotFound(e) then Ok(None) else Err(Error(RuntimeError, []))
  }

  /**
   * The two lookups agree on every search outcome: both give the ID found,
   * both fail with RuntimeError on the same failures, and exactly where the
   * reference lookup raises ValueError the SRFA lookup gives None.
   */
  lemma LookupsAgree(found: Result<string>)
    ensures ReferenceLookup(found).Ok? <==> SrfaLookup(found).Ok? && SrfaLookup(found).value.Some?
    ensures ReferenceLookup(found).Ok? ==> SrfaLookup(found).value == Some(ReferenceLookup(found).value)
    ensures (ReferenceLookup(found).Err? && ReferenceLookup(found).error.kind == ValueError)
            <==> SrfaLookup(found) == Ok(None)
    ensures (ReferenceLookup(found).Err? && ReferenceLookup(found).error.kind == RuntimeError)
            <==> SrfaLookup(found).Err?
  {
  }

  // ---------------------------------------------------------------------
  // The calibration IDs of a row
  // ---------------------------------------------------------------------

  /**
   * An attribute of the row's metadata object that the branches of `run`
   * may or may not assign: reading one never assigned raises AttributeError.
   */
  datatype Slot = Unset | Assigned(v: Value)

  /** A cell the row has and Python finds true (NaN included). */
  predicate Given(row: Row, column: string)
  {
    column in row && Truthy(row[column])
  }

  /**
   * The reference calibration: the row's `calibration_id` when given,
   * otherwise the lookup by the file at `ref_calibration_path` when that is
   * given (a cell that is not a string cannot be a path: TypeError),
   * otherwise never assigned.
   */
  function ReferenceCalibrationId(row: Row, refSearch: Search): (r: Result<Slot>)
    ensures r.Ok? && r.value.Assigned? ==> Given(row, "calibration_id") || Given(row, "ref_calibration_path")
    ensures r == Ok(Unset) <==> !Given(row, "calibration_id") && !Given(row, "ref_calibration_path")
  {
    if Given(row, "calibration_id") then Ok(Assigned(row["calibration_id"]))
    else if Given(row, "ref_calibration_path") then
      if !row["ref_calibration_path"].Str? then Err(Error(TypeError, []))
      else
        var id := ReferenceLookup(refSearch(row["ref_calibration_path"].s));
        if id.Err? then Err(id.error) else Ok(Assigned(Str(id.value)))
    else Ok(Unset)
  }

  /** Where the SRFA calibration of a row comes from. */
  datatype SrfaSource =
    | SrfaGiven(v: Value)      // the row's `srfa_calib_id`
    | SrfaFound(id: string)    // an existing record found by the calibration file's stem
    | SrfaToGenerate(path: string)  // no record yet: one is generated for the file
    | NoSrfa                   // neither column given

  /**
   * The SRFA calibration source: the row's `srfa_calib_id` when given,
   * otherwise the lookup by the stem of `srfa_calib_path` when that is
   * given, falling back to generating a record when nothing is found;
   * otherwise none.
   */
  function SrfaChoice(row: Row, srfaSearch: Search): (r: Result<SrfaSource>)
    ensures r.Ok? && r.value.SrfaToGenerate? ==>
      !Given(row, "srfa_calib_id") && "srfa_calib_path" in row && row["srfa_calib_path"] == Str(r.value.path)
    ensures r == Ok(NoSrfa) <==> !Given(row, "srfa_calib_id") && !Given(row, "srfa_calib_path")
  {
    if Given(row, "srfa_calib_id") then Ok(SrfaGiven(row["srfa_calib_id"]))
    else if Given(row, "srfa_calib_path") then
      if !row["srfa_calib_path"].Str? then Err(Error(TypeError, []))
      else
        var path := row["srfa_calib_path"].s;
        match SrfaLookup(srfaSearch(PathStem(PathName(path))))
        case Err(e) => Err(e)
        case Ok(Some(id)) => Ok(SrfaFound(id))
        case Ok(None) => Ok(SrfaToGenerate(path))
    else Ok(NoSrfa)
  }

  /**
   * Precedence of the reference calibration: a given `calibration_id` is
   * taken as it is and no lookup happens, whatever the search would say; a
   * given path is looked up only without one.
   */
  lemma ReferencePrecedence(row: Row, a: Search, b: Search)
    ensures Given(row, "calibration_id") ==>
      ReferenceCalibrationId(row, a) == ReferenceCalibrationId(row, b) == Ok(Assigned(row["calibration_id"]))
    ensures !Given(row, "calibration_id") && Given(row, "ref_calibration_path") && row["ref_calibration_path"].Str? ==>
      var found := a(row["ref_calibration_path"].s);
      ReferenceCalibrationId(row, a) == if found.Ok? then Ok(Assigned(Str(found.value))) else Err(ReferenceLookup(found).error)
  {
  }

  /**
   * Precedence of the SRFA calibration: a given `srfa_calib_id` is taken as
   * it is, whatever the search would say; a given path whose stem the
   * search does not find (ValueError or IndexError) falls back to generating
   * a calibration for that path.
   */
  lemma SrfaPrecedence(row: Row, a: Search, b: Search)
    ensures Given(row, "srfa_calib_id") ==>
      SrfaChoice(row, a) == SrfaChoice(row, b) == Ok(SrfaGiven(row["srfa_calib_id"]))
    ensures !Given(row, "srfa_calib_id") && Given(row, "srfa_calib_path") && row["srfa_calib_path"].Str? ==>
      var path := row["srfa_calib_path"].s;
      var found := a(PathStem(PathName(path)));
      (found.Ok? ==> SrfaChoice(row, a) == Ok(SrfaFound(found.value)))
      && (found.Err? && NotFound(found.error) ==> SrfaChoice(row, a) == Ok(SrfaToGenerate(path)))
  {
  }

  /** The values of a list that are not None, in their order. */
  function NotNone(xs: seq<Value>): (r: seq<Value>)
    ensures forall v :: v in r <==> v in xs && v != Null
    ensures |r| <= |xs|
  {
    if xs == [] then []
    else (if xs[0] != Null then [xs[0]] else []) + NotNone(xs[1..])
  }

  /** Filtering a concatenation filters each part, so the order of the list is kept. */
  lemma {:induction false} NotNoneAppend(xs: seq<Value>, ys: seq<Value>)
    ensures NotNone(xs + ys) == NotNone(xs) + NotNone(ys)
  {
    if xs == [] {
      assert xs + ys == ys;
    } else {
      assert (xs + ys)[1..] == xs[1..] + ys;
      NotNoneAppend(xs[1..], ys);
    }
  }

  /** The value an attribute holds, reading one never assigned as None. */
  function SlotValue(s: Slot): Value
  {
    if s.Assigned? then s.v else Null
  }

  /**
   * The `calibration_ids` of an analysis: the reference calibration, then
   * the SRFA one, each only when there is one (not None); an attribute never
   * assigned counts as None.
   */
  function CalibrationIdList(reference: Slot, srfa: Slot): (ids: seq<Value>)
    ensures Null !in ids && |ids| <= 2
    ensures SlotValue(reference) != Null ==> |ids| >= 1 && ids[0] == SlotValue(reference)
    ensures SlotValue(srfa) != Null ==> |ids| >= 1 && ids[|ids| - 1] == SlotValue(srfa)
    ensures forall v :: v in ids ==> v == SlotValue(reference) || v == SlotValue(srfa)
  {
    var ids := NotNone([SlotValue(reference), SlotValue(srfa)]);
    NotNoneAppend([SlotValue(reference)], [SlotValue(srfa)]);
    assert [SlotValue(reference)][1..] == [];
    assert [SlotValue(srfa)][1..] == [];
    ids
  }

  /**
   * The list as written reads both attributes, so a row that assigns
   * neither (no calibration column given, or no SRFA column given) raises
   * AttributeError.
   */
  function CalibrationIdListAsWritten(reference: Slot, srfa: Slot): (r: Result<seq<Value>>)
    ensures r.Err? <==> reference.Unset? || srfa.Unset?
    ensures r.Err? ==> r.error.kind == AttributeError
    ensures r.Ok? ==> r.value == CalibrationIdList(reference, srfa)
  {
    if reference.Unset? || srfa.Unset? then Err(Error(AttributeError, []))
    else Ok(NotNone([reference.v, srfa.v]))
  }

  // ---------------------------------------------------------------------
  // generate_calibration_ids
  // ---------------------------------------------------------------------

  /**
   * The `url` that `generate_calibration_ids` passes on as written: the row's
   * `calibration_file` cell whenever the row has a `calibration_file_url`
   * (KeyError when it has no `calibration_file`), otherwise None.
   */
  function CalibrationUrlAsWritten(row: Row): (r: Result<Option<string>>)
    ensures "calibration_file_url" !in row ==> r == Ok(None)
    ensures "calibration_file_url" in row && "calibration_file" !in row ==> r.Err? && r.error.kind == KeyError
    ensures r.Ok? && r.value.Some? ==> "calibration_file" in row && r.value == UrlArgument(row["calibration_file"])
  {
    if "calibration_file_url" !in row then Ok(None)
    else if "calibration_file" !in row then Err(Error(KeyError, ["calibration_file"]))
    else Ok(UrlArgument(row["calibration_file"]))
  }

  /**
   * The URL the check for a `calibration_file_url` column evidently means:
   * that column's cell when the row has one, otherwise None (the URL is then
   * built from the raw data URL).
   */
  function CalibrationUrl(row: Row): (r: Option<string>)
    ensures r.Some? ==> "calibration_file_url" in row && r == UrlArgument(row["calibration_file_url"])
    ensures "calibration_file_url" !in row ==> r.None?
  {
    if "calibration_file_url" in row then UrlArgument(row["calibration_file_url"]) else None
  }

  /**
   * As written, the calibration file's URL is read from `calibration_file`, a
   * column of the GC/MS input: a NOM row with only a `calibration_file_url`
   * raises KeyError, and one that has both gets the wrong URL.
   */
  lemma CalibrationUrlFromWrongColumn()
    ensures var row := map["srfa_calib_path" := Str("srfa_2024.raw"),
                           "calibration_file_url" := Str("https://example.org/srfa_2024.raw")];
      CalibrationUrlAsWritten(row).Err? && CalibrationUrlAsWritten(row).error.kind == KeyError
      && CalibrationUrl(row) == Some("https://example.org/srfa_2024.raw")
    ensures var row := map["calibration_file" := Str("reference.raw"),
                           "calibration_file_url" := Str("https://example.org/srfa_2024.raw")];
      CalibrationUrlAsWritten(row) == Ok(Some("reference.raw"))
      && CalibrationUrl(row) == Some("https://example.org/srfa_2024.raw")
  {
  }

  /** The records the calibration builders append to, and the two pools they draw IDs from. */
  datatype CalibrationRecords = CalibrationRecords(dataObjects: seq<Row>, calibrations: seq<Row>,
                                                   objectPool: seq<string>, calibrationPool: seq<string>)

  function RecordsOf(db: Database, pool: IDPool): CalibrationRecords
    reads db, pool
  {
    CalibrationRecords(db.dataObjectSet, db.calibrationSet, pool.Pool(DataObjectType),
                       pool.Pool(CalibrationInformationType))
  }

  /**
   * `generate_calibration_ids` for the SRFA file at `path`: a raw data object
   * for the file, appended, then an external SRFA calibration of it,
   * appended, and the calibration's ID. A standard other than "srfa" raises
   * ValueError after the data object has been appended.
   */
  function GeneratedCalibration(s: CalibrationRecords, path: string, url: Option<string>, fs: FileSystem,
                                cfg: NomSettings, pools: PoolSettings): (r: (CalibrationRecords, Result<Value>))
    ensures r.1.Ok? ==>
      cfg.calibrationStandard == "srfa"
      && |r.0.dataObjects| == |s.dataObjects| + 1 && r.0.dataObjects[..|s.dataObjects|] == s.dataObjects
      && |r.0.calibrations| == |s.calibrations| + 1 && r.0.calibrations[..|s.calibrations|] == s.calibrations
      && var obj := r.0.dataObjects[|s.dataObjects|];
         var calibration := r.0.calibrations[|s.calibrations|];
         "id" in calibration && calibration["id"].Str? && r.1.value == calibration["id"]
         && calibration == SrfaCalibrationRecord(calibration["id"].s, fs(path).name, RecordId(obj))
    ensures r.1.Err? ==> r.0.calibrations == s.calibrations && |r.0.dataObjects| <= |s.dataObjects| + 1
    ensures cfg.calibrationStandard != "srfa" ==> r.1.Err? && r.0.calibrationPool == s.calibrationPool
    ensures r.0.objectPool == TakeId(DataObjectType, s.objectPool, pools.threshold, pools.objectRefill).1
  {
    var obj := DataObjectFromPool(s.objectPool, pools.threshold, pools.objectRefill, cfg.rawDataCategory,
                                  cfg.rawDataObjectType, fs(path), cfg.rawDataObjectDesc, cfg.rawDataUrl,
                                  Null, Null, Null, url);
    if obj.0.Err? then (s.(objectPool := obj.1), Err(obj.0.error))
    else
      var s1 := s.(objectPool := obj.1, dataObjects := s.dataObjects + [obj.0.value]);
      var cal := SrfaCalibration(s.calibrationPool, pools.threshold, pools.calibrationRefill,
                                 cfg.calibrationStandard == "srfa", false, fs(path).name, RecordId(obj.0.value));
      if cal.0.Err? then (s1.(calibrationPool := cal.1), Err(cal.0.error))
      else (s1.(calibrationPool := cal.1, calibrations := s.calibrations + [cal.0.value]), Ok(cal.0.value["id"]))
  }

  method GenerateCalibrationIds(db: Database, pool: IDPool, mint: Minter, fs: FileSystem, cfg: NomSettings,
                                row: Row, path: string)
    returns (r: Result<Value>)
    modifies db`dataObjectSet, db`calibrationSet, pool
    ensures (RecordsOf(db, pool), r)
      == GeneratedCalibration(old(RecordsOf(db, pool)), path, CalibrationUrl(row), fs, cfg, PoolSettingsOf(pool, mint))
    ensures forall u :: u != DataObjectType && u != CalibrationInformationType ==> pool.Pool(u) == old(pool.Pool(u))
  {
    ghost var s := RecordsOf(db, pool);
    ghost var pools := PoolSettingsOf(pool, mint);
    var url := CalibrationUrl(row);
    var dataObject := GenerateDataObject(pool, mint, cfg.rawDataCategory, cfg.rawDataObjectType, fs(path),
                                         cfg.rawDataObjectDesc, cfg.rawDataUrl, Null, Null, Null, url);
    ghost var obj := DataObjectFromPool(s.objectPool, pools.threshold, pools.objectRefill, cfg.rawDataCategory,
                                        cfg.rawDataObjectType, fs(path), cfg.rawDataObjectDesc, cfg.rawDataUrl,
                                        Null, Null, Null, url);
    assert dataObject == obj.0 && pool.Pool(DataObjectType) == obj.1;
    if dataObject.Err? {
      return Err(dataObject.error);
    }
    db.dataObjectSet := db.dataObjectSet + [dataObject.value];
    var calibration := GenerateSrfaCalibration(pool, mint, fs(path).name, RecordId(dataObject.value),
                                               cfg.calibrationStandard == "srfa", false);
    ghost var cal := SrfaCalibration(s.calibrationPool, pools.threshold, pools.calibrationRefill,
                                     cfg.calibrationStandard == "srfa", false, fs(path).name, RecordId(obj.0.value));
    assert calibration == cal.0 && pool.Pool(CalibrationInformationType) == cal.1;
    if calibration.Err? {
      return Err(calibration.error);
    }
    db.calibrationSet := db.calibrationSet + [calibration.value];
    return Ok(calibration.value["id"]);
  }

  /**
   * The calibration IDs `run` gives a row's analysis: the reference
   * calibration, then the SRFA one, looked up or generated as the precedence
   * says; records are generated only for an SRFA file the search does not
   * find, and the first failure stops the row.
   */
  function RowCalibrations(s: CalibrationRecords, row: Row, refSearch: Search, srfaSearch: Search,
                           fs: FileSystem, cfg: NomSettings, pools: PoolSettings)
    : (r: (CalibrationRecords, Result<seq<Value>>))
    ensures r.1.Ok? ==> ReferenceCalibrationId(row, refSearch).Ok? && SrfaChoice(row, srfaSearch).Ok?
    ensures r.1.Ok? ==> Null !in r.1.value && |r.1.value| <= 2
    ensures r.1.Ok? && Given(row, "calibration_id") ==> |r.1.value| > 0 && r.1.value[0] == row["calibration_id"]
    ensures r.1.Ok? && Given(row, "srfa_calib_id") ==> |r.1.value| > 0 && r.1.value[|r.1.value| - 1] == row["srfa_calib_id"]
    ensures r.0 != s ==>
      ReferenceCalibrationId(row, refSearch).Ok? && SrfaChoice(row, srfaSearch).Ok?
      && SrfaChoice(row, srfaSearch).value.SrfaToGenerate?
  {
    var reference := ReferenceCalibrationId(row, refSearch);
    if reference.Err? then (s, Err(reference.error))
    else
      match SrfaChoice(row, srfaSearch)
      case Err(e) => (s, Err(e))
      case Ok(NoSrfa) => (s, Ok(CalibrationIdList(reference.value, Unset)))
      case Ok(SrfaGiven(v)) => (s, Ok(CalibrationIdList(reference.value, Assigned(v))))
      case Ok(SrfaFound(id)) => (s, Ok(CalibrationIdList(reference.value, Assigned(Str(id)))))
      case Ok(SrfaToGenerate(path)) =>
        var g := GeneratedCalibration(s, path, CalibrationUrl(row), fs, cfg, pools);
        if g.1.Err? then (g.0, Err(g.1.error))
        else (g.0, Ok(CalibrationIdList(reference.value, Assigned(g.1.value))))
  }

  method RowCalibrationIds(db: Database, pool: IDPool, mint: Minter, fs: FileSystem, cfg: NomSettings,
                           row: Row, refSearch: Search, srfaSearch: Search)
    returns (r: Result<seq<Value>>)
    modifies db`dataObjectSet, db`calibrationSet, pool
    ensures (RecordsOf(db, pool), r)
      == RowCalibrations(old(RecordsOf(db, pool)), row, refSearch, srfaSearch, fs, cfg, PoolSettingsOf(pool, mint))
    ensures forall u :: u != DataObjectType && u != CalibrationInformationType ==> pool.Pool(u) == old(pool.Pool(u))
  {
    var reference := ReferenceCalibrationId(row, refSearch);
    if reference.Err? {
      return Err(reference.error);
    }
    var srfa := SrfaChoice(row, srfaSearch);
    match srfa
    case Err(e) =>
      r := Err(e);
    case Ok(NoSrfa) =>
      r := Ok(CalibrationIdList(reference.value, Unset));
    case Ok(SrfaGiven(v)) =>
      r := Ok(CalibrationIdList(reference.value, Assigned(v)));
    case Ok(SrfaFound(id)) =>
      r := Ok(CalibrationIdList(reference.value, Assigned(Str(id))));
    case Ok(SrfaToGenerate(path)) =>
      var id := GenerateCalibrationIds(db, pool, mint, fs, cfg, row, path);
      if id.Err? {
        return Err(id.error);
      }
      r := Ok(CalibrationIdList(reference.value, Assigned(id.value)));
  }

  /**
   * A row that gives a reference calibration but no SRFA column leaves the
   * SRFA attribute unassigned: as written, building the list then raises
   * AttributeError, although `run` announces that it goes on without SRFA
   * records; read as None, the list is the reference calibration alone.
   */
  lemma RowWithoutSrfaColumnsRaises(refSearch: Search, srfaSearch: Search)
    ensures var row := map["calibration_id" := Str("nmdc:calib-13-abc123")];
      var reference := ReferenceCalibrationId(row, refSearch);
      var srfa := SrfaChoice(row, srfaSearch);
      reference == Ok(Assigned(Str("nmdc:calib-13-abc123"))) && srfa == Ok(NoSrfa)
      && CalibrationIdListAsWritten(reference.value, Unset) == Err(Error(AttributeError, []))
      && CalibrationIdList(reference.value, Unset) == [Str("nmdc:calib-13-abc123")]
  {
    var row := map["calibration_id" := Str("nmdc:calib-13-abc123")];
    assert Given(row, "calibration_id");
    assert !Given(row, "srfa_calib_id") && !Given(row, "srfa_calib_path");
  }

  // ---------------------------------------------------------------------
  // generate_nom_analysis
  // ---------------------------------------------------------------------

  /** What one NomAnalysis record links to and says about its run. */
  datatype NomAnalysisLinks = NomAnalysisLinks(
    fileName: string, rawDataId: string, dataGenId: Value, processedDataId: string,
    processingInstitution: Value, executionResource: Value, calibrationIds: Value,
    qcStatus: Value, qcComment: Value)

  /**
   * The record `generate_nom_analysis` builds for the ID `id`. The result of
   * `clean_dict` is dropped, so the dictionary reaches the record as built:
   * every slot is present, None-valued ones included.
   */
  function NomAnalysisRecord(w: Workflow, id: string, links: NomAnalysisLinks): (r: Row)
    ensures "id" in r && r["id"] == Str(id)
    ensures "type" in r && r["type"] == Str(NomAnalysisType)
    ensures "has_input" in r && r["has_input"] == List([Str(links.rawDataId)])
    ensures "has_output" in r && r["has_output"] == List([Str(links.processedDataId)])
    ensures "uses_calibration" in r && r["uses_calibration"] == links.calibrationIds
    ensures "was_informed_by" in r && r["was_informed_by"] == links.dataGenId
    ensures "execution_resource" in r && r["execution_resource"] == links.executionResource
    ensures "qc_status" in r && r["qc_status"] == links.qcStatus
    ensures "qc_comment" in r && r["qc_comment"] == links.qcComment
  {
    map[
      "id" := Str(id),
      "name" := Str(w.analysisName + " for " + links.fileName),
      "description" := Str(w.description),
      "uses_calibration" := links.calibrationIds,
      "processing_institution" := links.processingInstitution,
      "execution_resource" := links.executionResource,
      "git_url" := Str(w.gitUrl),
      "version" := w.version,
      "was_informed_by" := links.dataGenId,
      "has_input" := List([Str(links.rawDataId)]),
      "has_output" := List([Str(links.processedDataId)]),
      "started_at_time" := Str("placeholder"),
      "ended_at_time" := Str("placeholder"),
      "type" := Str(NomAnalysisType),
      "qc_status" := links.qcStatus,
      "qc_comment" := links.qcComment
    ]
  }

  /**
   * Because the cleaned dictionary is dropped, a missing QC status or
   * calibration list stays in the record as None, where cleaning would have
   * removed it.
   */
  lemma NomAnalysisNotCleaned(w: Workflow, id: string, links: NomAnalysisLinks)
    requires links.qcStatus == Null || links.calibrationIds == Null
    ensures NomAnalysisRecord(w, id, links) != CleanDict(NomAnalysisRecord(w, id, links))
  {
    var r := NomAnalysisRecord(w, id, links);
    if links.qcStatus == Null {
      assert "qc_status" in r && "qc_status" !in CleanDict(r);
    } else {
      assert "uses_calibration" in r && "uses_calibration" !in CleanDict(r);
    }
  }

  /**
   * `generate_nom_analysis`: the incremented ID when one is given, without
   * touching the pool; otherwise one ID from the NomAnalysis pool followed
   * by ".1".
   */
  method GenerateNomAnalysis(pool: IDPool, mint: Minter, w: Workflow, links: NomAnalysisLinks,
                             incrementedId: Option<string>)
    returns (r: Result<Row>)
    modifies pool
    ensures incrementedId.Some? ==>
      pool.pools == old(pool.pools) && r == Ok(NomAnalysisRecord(w, incrementedId.value, links))
    ensures incrementedId.None? ==>
      var taken := TakeId(NomAnalysisType, old(pool.Pool(NomAnalysisType)), pool.refillThreshold,
                          DefaultRefill(mint, NomAnalysisType, pool.poolSize));
      pool.Pool(NomAnalysisType) == taken.1
      && r == match taken.0
              case Ok(minted) => Ok(NomAnalysisRecord(w, minted + ".1", links))
              case Err(e) => Err(e)
    ensures forall u :: u != NomAnalysisType ==> pool.Pool(u) == old(pool.Pool(u))
  {
    if incrementedId.Some? {
      return Ok(NomAnalysisRecord(w, incrementedId.value, links));
    }
    var id, _ := pool.GetId(NomAnalysisType, mint);
    match id
    case Ok(minted) =>
      r := Ok(NomAnalysisRecord(w, minted + ".1", links));
    case Err(e) =>
      r := Err(e);
  }

  /** The first rerun of a freshly minted analysis gets the ID ending in ".2". */
  lemma FirstRerunOfMintedId(minted: string)
    ensures IncrementId(minted + ".1") == minted + ".2"
    ensures Version(minted + ".1") == 1
  {
    var id := minted + ".1";
    TrailingRunOfAppend(minted + ".", "1");
    assert id == (minted + ".") + "1";
    assert id[..|minted| + 1] == minted + "." && id[|minted| + 1..] == "1";
    assert DigitsValue("1") == 1;
    assert NatToString(2) == "2";
  }

  // ---------------------------------------------------------------------
  // create_processed_data_objects
  // ---------------------------------------------------------------------

  /** An entry of the recursive listing of a directory: its path and whether it is a regular file. */
  datatype DirEntry = DirEntry(path: string, isFile: bool)

  /** The recursive listing of each directory (every path beneath it, files and directories). */
  type Listing = string -> seq<DirEntry>

  /** What a processed-data file becomes, by its suffix. */
  datatype FileKind = ProcessedTable | WorkflowParameters | QcPlot | Ignored

  /**
   * The suffix tests in their order: ".csv" is processed data, ".json" a
   * parameter file, any suffix containing ".png" a QC plot, ".toml" a
   * parameter file, and anything else is skipped.
   */
  function KindOf(suffix: string): FileKind
  {
    if suffix == ".csv" then ProcessedTable
    else if suffix == ".json" then WorkflowParameters
    else if Contains(".png", suffix) then QcPlot
    else if suffix == ".toml" then WorkflowParameters
    else Ignored
  }

  function FileKindOf(f: DirEntry): FileKind
  {
    KindOf(PathSuffix(PathName(f.path)))
  }

  /** The kinds whose objects are stored and listed as processed data. */
  predicate Listed(k: FileKind)
  {
    k == ProcessedTable || k == QcPlot
  }

  /** The regular files of a listing, in its order. */
  function RegularFiles(entries: seq<DirEntry>): (files: seq<DirEntry>)
    ensures forall f :: f in files <==> f in entries && f.isFile
    ensures |files| <= |entries|
  {
    if entries == [] then []
    else (if entries[0].isFile then [entries[0]] else []) + RegularFiles(entries[1..])
  }

  /** `Path(row["processed_data_directory"])`: KeyError without the column, TypeError for a cell that is not a string. */
  function ProcessedDirectory(row: Row): (r: Result<string>)
    ensures r.Ok? <==> "processed_data_directory" in row && row["processed_data_directory"].Str?
    ensures r.Ok? ==> r.value == row["processed_data_directory"].s
  {
    if "processed_data_directory" !in row then Err(Error(KeyError, ["processed_data_directory"]))
    else if !row["processed_data_directory"].Str? then Err(Error(TypeError, []))
    else Ok(row["processed_data_directory"].s)
  }

  /** Everything a step of the scan reads besides the run itself. */
  datatype ScanContext = ScanContext(cfg: NomSettings, fs: FileSystem, clock: FileClock, baseUrl: string,
                                     analysisId: Value, threshold: nat, refill: Refill)

  function KindCategory(k: FileKind, cfg: NomSettings): string
  {
    if k == WorkflowParameters then cfg.workflowParamDataCategory else cfg.processedDataCategory
  }

  function KindObjectType(k: FileKind, cfg: NomSettings): string
  {
    match k
    case ProcessedTable => cfg.processedDataObjectType
    case QcPlot => cfg.qcProcessDataObjType
    case _ => cfg.workflowParamDataObjectType
  }

  function KindDescription(k: FileKind, cfg: NomSettings): string
  {
    match k
    case ProcessedTable => cfg.processedDataObjectDesc
    case QcPlot => cfg.qcProcessDataDescription
    case _ => cfg.workflowParamDataObjectDesc
  }

  /** A file of the scan with its kind. */
  datatype ScannedFile = ScannedFile(entry: DirEntry, kind: FileKind)

  /** The files with their kinds, in order. */
  function WithKinds(files: seq<DirEntry>): (r: seq<ScannedFile>)
    ensures |r| == |files|
    ensures forall i :: 0 <= i < |files| ==> r[i] == ScannedFile(files[i], FileKindOf(files[i]))
  {
    seq(|files|, i requires 0 <= i < |files| => ScannedFile(files[i], FileKindOf(files[i])))
  }

  /** The data object of a kept file with the ID `id`, generated by the analysis. */
  function FileObject(f: ScannedFile, id: string, ctx: ScanContext): (r: Row)
    ensures RecordId(r) == id
  {
    DataObjectRecord(id, KindCategory(f.kind, ctx.cfg), KindObjectType(f.kind, ctx.cfg), ctx.fs(f.entry.path),
                     KindDescription(f.kind, ctx.cfg), ctx.baseUrl, ctx.analysisId, Null, Null, None)
  }

  /** The data objects of files paired with their IDs, in order. */
  function Objects(stored: seq<(ScannedFile, string)>, ctx: ScanContext): (r: seq<Row>)
    ensures |r| == |stored|
  {
    if stored == [] then []
    else
      var n := |stored| - 1;
      Objects(stored[..n], ctx) + [FileObject(stored[n].0, stored[n].1, ctx)]
  }

  /** `get_start_end_times` of a file. */
  function FileTimes(clock: FileClock, f: DirEntry): (int, int)
  {
    var t := clock(f.path);
    StartEndTimes(t.0, t.1, t.2)
  }

  /** The analysis record with the times of a processed-data file. */
  function Timed(analysis: Row, times: (int, int)): Row
  {
    analysis["started_at_time" := Int(times.0)]["ended_at_time" := Int(times.1)]
  }

  /**
   * The state of the scan: the files stored so far with their IDs (their
   * data objects follow the database's earlier ones), the analysis record,
   * the processed IDs, the parameter file with its ID (unbound until a
   * parameter file is seen), the DataObject pool, the IDs taken from it so
   * far, and the exception that stopped the scan.
   */
  datatype ScanRun = ScanRun(stored: seq<(ScannedFile, string)>, analysis: Row, processedIds: seq<string>,
                             parameter: Option<(ScannedFile, string)>, objectPool: seq<string>, taken: seq<string>,
                             error: Option<Error>)

  /** A kept file with the ID `id` handled as its kind says (the analysis takes a table's times). */
  function Classified(s: ScanRun, f: ScannedFile, id: string, ctx: ScanContext): ScanRun
  {
    match f.kind
    case ProcessedTable =>
      s.(analysis := Timed(s.analysis, FileTimes(ctx.clock, f.entry)),
         stored := s.stored + [(f, id)], processedIds := s.processedIds + [id])
    case QcPlot => s.(stored := s.stored + [(f, id)], processedIds := s.processedIds + [id])
    case WorkflowParameters => s.(parameter := Some((f, id)))
    case Ignored => s
  }

  /** A file with its kind: skipped, or given an ID from the pool and classified. */
  function StepKept(s: ScanRun, f: ScannedFile, ctx: ScanContext): ScanRun
  {
    if s.error.Some? || f.kind == Ignored then s
    else
      var next := TakeId(DataObjectType, s.objectPool, ctx.threshold, ctx.refill);
      if next.0.Err? then s.(objectPool := next.1, error := Some(next.0.error))
      else Classified(s.(objectPool := next.1, taken := s.taken + [next.0.value]), f, next.0.value, ctx)
  }

  /** The scan over files with their kinds, in order. */
  function Scan(s0: ScanRun, files: seq<ScannedFile>, ctx: ScanContext): ScanRun
  {
    if files == [] then s0 else StepKept(Scan(s0, files[..|files| - 1], ctx), files[|files| - 1], ctx)
  }

  /** One more file extends the scan by one step. */
  lemma ScanNext(s0: ScanRun, files: seq<ScannedFile>, k: nat, ctx: ScanContext)
    requires k < |files|
    ensures Scan(s0, files[..k + 1], ctx) == StepKept(Scan(s0, files[..k], ctx), files[k], ctx)
  {
    assert files[..k + 1][..k] == files[..k];
  }

  lemma {:induction false} ScanStops(s0: ScanRun, files: seq<ScannedFile>, k: nat, ctx: ScanContext)
    requires k <= |files| && Scan(s0, files[..k], ctx).error.Some?
    ensures Scan(s0, files, ctx) == Scan(s0, files[..k], ctx)
    decreases |files| - k
  {
    if k < |files| {
      assert files[..k + 1][..k] == files[..k];
      ScanStops(s0, files, k + 1, ctx);
    } else {
      assert files[..k] == files;
    }
  }

  /** The parameter-file object of the run, when a parameter file was seen. */
  function ParameterObject(s: ScanRun, ctx: ScanContext): (r: Option<Row>)
    ensures r.Some? <==> s.parameter.Some?
    ensures r.Some? ==> RecordId(r.value) == s.parameter.value.1
  {
    if s.parameter.Some? then Some(FileObject(s.parameter.value.0, s.parameter.value.1, ctx)) else None
  }

  /** What the scan returns: the processed IDs and the parameter-file object, or the exception. */
  function ScanOutcome(s: ScanRun, ctx: ScanContext): (r: Result<(seq<string>, Row)>)
    ensures r.Ok? <==> s.error.None? && s.parameter.Some?
    ensures r.Ok? ==> r.value.0 == s.processedIds && RecordId(r.value.1) == s.parameter.value.1
    ensures s.error.None? && s.parameter.None? ==> r == Err(Error(NameError, ["workflow_data_object"]))
  {
    if s.error.Some? then Err(s.error.value)
    else if s.parameter.None? then Err(Error(NameError, ["workflow_data_object"]))
    else Ok((s.processedIds, ParameterObject(s, ctx).value))
  }

  /** The database, the analysis and the pool as the run says, after the database's `base` objects. */
  ghost predicate ScanStored(db: Database, analysis: SchemaObject, pool: IDPool, base: seq<Row>, s: ScanRun,
                             ctx: ScanContext)
    reads db, analysis, pool
  {
    db.dataObjectSet == base + Objects(s.stored, ctx) && analysis.slots == s.analysis
    && pool.Pool(DataObjectType) == s.objectPool
  }

  /** A file's data object stored as its kind says, and the analysis timed by a table. */
  method StoreFileObject(db: Database, analysis: SchemaObject, f: ScannedFile, obj: Row, ctx: ScanContext,
                         processedIds: seq<string>, parameterObject: Option<Row>, ghost base: seq<Row>,
                         ghost s: ScanRun)
    returns (processedIds': seq<string>, parameterObject': Option<Row>)
    requires obj == FileObject(f, RecordId(obj), ctx)
    requires db.dataObjectSet == base + Objects(s.stored, ctx) && analysis.slots == s.analysis
    requires processedIds == s.processedIds && parameterObject == ParameterObject(s, ctx)
    modifies db`dataObjectSet, analysis`slots
    ensures var r := Classified(s, f, RecordId(obj), ctx);
      db.dataObjectSet == base + Objects(r.stored, ctx) && analysis.slots == r.analysis
      && processedIds' == r.processedIds && parameterObject' == ParameterObject(r, ctx)
  {
    ghost var stored' := s.stored + [(f, RecordId(obj))];
    assert Objects(stored', ctx) == Objects(s.stored, ctx) + [obj] by {
      AppendLast(s.stored, (f, RecordId(obj)));
    }
    AppendAssoc(base, Objects(s.stored, ctx), [obj]);
    processedIds', parameterObject' := processedIds, parameterObject;
    match f.kind
    case ProcessedTable =>
      analysis.slots := Timed(analysis.slots, FileTimes(ctx.clock, f.entry));
      db.dataObjectSet := db.dataObjectSet + [obj];
      processedIds' := processedIds + [RecordId(obj)];
    case WorkflowParameters =>
      parameterObject' := Some(obj);
    case QcPlot =>
      db.dataObjectSet := db.dataObjectSet + [obj];
      processedIds' := processedIds + [RecordId(obj)];
    case Ignored =>
  }

  /** A step whose pool take fails stops the run with that error. */
  lemma StepFails(s: ScanRun, f: ScannedFile, ctx: ScanContext, obj: Result<Row>, pool: seq<string>)
    requires s.error.None? && f.kind != Ignored
    requires (obj, pool) == DataObjectFromPool(s.objectPool, ctx.threshold, ctx.refill, KindCategory(f.kind, ctx.cfg),
                                               KindObjectType(f.kind, ctx.cfg), ctx.fs(f.entry.path),
                                               KindDescription(f.kind, ctx.cfg), ctx.baseUrl, ctx.analysisId,
                                               Null, Null, None)
    requires obj.Err?
    ensures StepKept(s, f, ctx) == s.(objectPool := pool, error := Some(obj.error))
  {
  }

  /** A step whose pool take succeeds generates the file's object and classifies the file. */
  lemma StepGenerates(s: ScanRun, f: ScannedFile, ctx: ScanContext, obj: Result<Row>, pool: seq<string>)
    requires s.error.None? && f.kind != Ignored
    requires (obj, pool) == DataObjectFromPool(s.objectPool, ctx.threshold, ctx.refill, KindCategory(f.kind, ctx.cfg),
                                               KindObjectType(f.kind, ctx.cfg), ctx.fs(f.entry.path),
                                               KindDescription(f.kind, ctx.cfg), ctx.baseUrl, ctx.analysisId,
                                               Null, Null, None)
    requires obj.Ok?
    ensures obj.value == FileObject(f, RecordId(obj.value), ctx)
    ensures StepKept(s, f, ctx)
         == Classified(s.(objectPool := pool, taken := s.taken + [RecordId(obj.value)]), f, RecordId(obj.value), ctx)
  {
  }

  method ScanFile(db: Database, analysis: SchemaObject, pool: IDPool, mint: Minter, f: ScannedFile, ctx: ScanContext,
                  processedIds: seq<string>, parameterObject: Option<Row>, ghost base: seq<Row>, ghost s: ScanRun)
    returns (err: Option<Error>, processedIds': seq<string>, parameterObject': Option<Row>)
    requires s.error.None? && ScanStored(db, analysis, pool, base, s, ctx)
    requires processedIds == s.processedIds && parameterObject == ParameterObject(s, ctx)
    requires ctx.threshold == pool.refillThreshold && ctx.refill == DefaultRefill(mint, DataObjectType, pool.poolSize)
    modifies db`dataObjectSet, analysis`slots, pool
    ensures var r := StepKept(s, f, ctx);
      ScanStored(db, analysis, pool, base, r, ctx) && err == r.error
      && processedIds' == r.processedIds && parameterObject' == ParameterObject(r, ctx)
    ensures forall u :: u != DataObjectType ==> pool.Pool(u) == old(pool.Pool(u))
  {
    var k := f.kind;
    if k == Ignored {
      return None, processedIds, parameterObject;
    }
    var obj := GenerateDataObject(pool, mint, KindCategory(k, ctx.cfg), KindObjectType(k, ctx.cfg), ctx.fs(f.entry.path),
                                  KindDescription(k, ctx.cfg), ctx.baseUrl, ctx.analysisId, Null, Null, None);
    if obj.Err? {
      StepFails(s, f, ctx, obj, pool.Pool(DataObjectType));
      return Some(obj.error), processedIds, parameterObject;
    }
    StepGenerates(s, f, ctx, obj, pool.Pool(DataObjectType));
    ghost var s1 := s.(objectPool := pool.Pool(DataObjectType), taken := s.taken + [RecordId(obj.value)]);
    processedIds', parameterObject' := StoreFileObject(db, analysis, f, obj.value, ctx, processedIds,
                                                       parameterObject, base, s1);
    err := None;
  }

  /**
   * `create_processed_data_objects`: the regular files under the row's
   * processed-data directory, in listing order, each stored by kind; an
   * empty listing raises FileNotFoundError, and a directory without a
   * parameter file leaves the returned object unbound (NameError).
   */
  method CreateProcessedDataObjects(db: Database, analysis: SchemaObject, pool: IDPool, mint: Minter,
                                    fs: FileSystem, clock: FileClock, listing: Listing, cfg: NomSettings, row: Row)
    returns (r: Result<(seq<string>, Row)>)
    modifies db`dataObjectSet, analysis`slots, pool
    ensures ProcessedDirectory(row).Err? ==>
      r == Err(ProcessedDirectory(row).error)
      && db.dataObjectSet == old(db.dataObjectSet) && analysis.slots == old(analysis.slots) && pool.pools == old(pool.pools)
    ensures ProcessedDirectory(row).Ok? && listing(ProcessedDirectory(row).value) == [] ==>
      r.Err? && r.error.kind == FileNotFoundError
      && db.dataObjectSet == old(db.dataObjectSet) && analysis.slots == old(analysis.slots) && pool.pools == old(pool.pools)
    ensures ProcessedDirectory(row).Ok? && listing(ProcessedDirectory(row).value) != [] ==>
      var directory := ProcessedDirectory(row).value;
      var ctx := ScanContext(cfg, fs, clock, cfg.processDataUrl + PathName(directory) + "/", Get(old(analysis.slots), "id"),
                             pool.refillThreshold, DefaultRefill(mint, DataObjectType, pool.poolSize));
      var s := Scan(ScanRun([], old(analysis.slots), [], None, old(pool.Pool(DataObjectType)), [], None),
                    WithKinds(RegularFiles(listing(directory))), ctx);
      ScanStored(db, analysis, pool, old(db.dataObjectSet), s, ctx) && r == ScanOutcome(s, ctx)
    ensures forall u :: u != DataObjectType ==> pool.Pool(u) == old(pool.Pool(u))
  {
    var directory := ProcessedDirectory(row);
    if directory.Err? {
      return Err(directory.error);
    }
    var entries := listing(directory.value);
    if entries == [] {
      return Err(Error(FileNotFoundError, [directory.value]));
    }
    var regular := RegularFiles(entries);
    var files := WithKinds(regular);
    var ctx := ScanContext(cfg, fs, clock, cfg.processDataUrl + PathName(directory.value) + "/", Get(analysis.slots, "id"),
                           pool.refillThreshold, DefaultRefill(mint, DataObjectType, pool.poolSize));
    ghost var base := db.dataObjectSet;
    ghost var s0 := ScanRun([], analysis.slots, [], None, pool.Pool(DataObjectType), [], None);
    var processedIds: seq<string> := [];
    var parameterObject: Option<Row> := None;
    var k := 0;
    while k < |files|
      invariant 0 <= k <= |files|
      invariant Scan(s0, files[..k], ctx).error.None?
      invariant ScanStored(db, analysis, pool, base, Scan(s0, files[..k], ctx), ctx)
      invariant processedIds == Scan(s0, files[..k], ctx).processedIds
      invariant parameterObject == ParameterObject(Scan(s0, files[..k], ctx), ctx)
      invariant forall u :: u != DataObjectType ==> pool.Pool(u) == old(pool.Pool(u))
    {
      ghost var s := Scan(s0, files[..k], ctx);
      ScanNext(s0, files, k, ctx);
      var err;
      var kind := FileKindOf(regular[k]);
      assert files[k] == ScannedFile(regular[k], kind);
      err, processedIds, parameterObject := ScanFile(db, analysis, pool, mint, ScannedFile(regular[k], kind), ctx, processedIds,
                                                     parameterObject, base, s);
      if err.Some? {
        ScanStops(s0, files, k + 1, ctx);
        return Err(err.value);
      }
      k := k + 1;
    }
    assert files[..k] == files by {
      if files != [] {
        PrefixStep(files, 0);
      }
    }
    if parameterObject.None? {
      return Err(Error(NameError, ["workflow_data_object"]));
    }
    return Ok((processedIds, parameterObject.value));
  }

  // ---------------------------------------------------------------------
  // What the scan produces
  // ---------------------------------------------------------------------

  /** The files that are given a data object, in listing order: those whose kind is not ignored. */
  function Kept(files: seq<ScannedFile>): (kept: seq<ScannedFile>)
    ensures |kept| <= |files|
  {
    if files == [] then []
    else
      var last := files[|files| - 1];
      Kept(files[..|files| - 1]) + if last.kind != Ignored then [last] else []
  }

  /** The kept files are exactly the files whose kind is not ignored, each with its kind. */
  lemma KeptFiles(files: seq<DirEntry>)
    ensures forall kf :: kf in Kept(WithKinds(files)) <==>
      kf.entry in files && kf.kind == FileKindOf(kf.entry) && kf.kind != Ignored
  {
    KeptMembers(WithKinds(files));
    forall kf: ScannedFile | kf.entry in files && kf.kind == FileKindOf(kf.entry)
      ensures kf in WithKinds(files)
    {
      var i :| 0 <= i < |files| && files[i] == kf.entry;
      assert WithKinds(files)[i] == kf;
    }
  }

  lemma {:induction false} KeptMembers(files: seq<ScannedFile>)
    ensures forall kf :: kf in Kept(files) <==> kf in files && kf.kind != Ignored
  {
    if files != [] {
      var n := |files| - 1;
      KeptMembers(files[..n]);
      assert files == files[..n] + [files[n]];
    }
  }

  /** The stored (table and QC-plot) files among `kept`, whose IDs are `ids`, with their IDs, in order. */
  function StoredPairs(kept: seq<ScannedFile>, ids: seq<string>): (r: seq<(ScannedFile, string)>)
    requires |kept| == |ids|
    ensures |r| <= |ids|
  {
    if kept == [] then []
    else
      var n := |kept| - 1;
      StoredPairs(kept[..n], ids[..n]) + if Listed(kept[n].kind) then [(kept[n], ids[n])] else []
  }

  /** The IDs of the stored files among `kept`, in order. */
  function StoredIds(kept: seq<ScannedFile>, ids: seq<string>): (r: seq<string>)
    requires |kept| == |ids|
    ensures |r| == |StoredPairs(kept, ids)|
  {
    if kept == [] then []
    else
      var n := |kept| - 1;
      StoredIds(kept[..n], ids[..n]) + if Listed(kept[n].kind) then [ids[n]] else []
  }

  /**
   * The stored pairs are exactly the kept tables and QC plots with their
   * IDs, and the stored IDs are theirs, position by position.
   */
  lemma {:induction false} StoredMembers(kept: seq<ScannedFile>, ids: seq<string>)
    requires |kept| == |ids|
    ensures forall p :: p in StoredPairs(kept, ids) <==>
      exists i :: 0 <= i < |kept| && Listed(kept[i].kind) && p == (kept[i], ids[i])
    ensures forall i :: 0 <= i < |StoredIds(kept, ids)| ==> StoredIds(kept, ids)[i] == StoredPairs(kept, ids)[i].1
  {
    if kept != [] {
      var n := |kept| - 1;
      StoredMembers(kept[..n], ids[..n]);
      assert forall i :: 0 <= i < n ==> kept[..n][i] == kept[i] && ids[..n][i] == ids[i];
    }
  }

  /** The position of the last kept file of kind `k`, if there is one. */
  function LastOfKind(kept: seq<ScannedFile>, k: FileKind): (j: Option<nat>)
    ensures j.None? <==> forall i :: 0 <= i < |kept| ==> kept[i].kind != k
    ensures j.Some? ==> j.value < |kept| && kept[j.value].kind == k
                        && forall i :: j.value < i < |kept| ==> kept[i].kind != k
  {
    if kept == [] then None
    else
      var n := |kept| - 1;
      if kept[n].kind == k then Some(n)
      else
        assert forall i :: 0 <= i < n ==> kept[..n][i] == kept[i];
        LastOfKind(kept[..n], k)
  }

  /** Timing the analysis twice keeps only the second times. */
  lemma TimedTwice(analysis: Row, first: (int, int), second: (int, int))
    ensures Timed(Timed(analysis, first), second) == Timed(analysis, second)
  {
    var a := Timed(Timed(analysis, first), second);
    var b := Timed(analysis, second);
    assert a.Keys == b.Keys;
    assert forall k :: k in a ==> a[k] == b[k];
  }

  /**
   * The run after scanning: `taken` is what successive `get_id` calls
   * hand out for the kept files, and, when none raised, the stored files
   * and their IDs are appended in order, the parameter file is the last
   * one seen and the analysis carries the last table's times.
   */
  ghost predicate Shaped(s0: ScanRun, s: ScanRun, kept: seq<ScannedFile>, t: Taken, clock: FileClock)
  {
    s.error == t.error && s.objectPool == t.pool && s.taken == s0.taken + t.ids
    && (t.error.None? ==>
          |t.ids| == |kept|
          && s.stored == s0.stored + StoredPairs(kept, t.ids)
          && s.processedIds == s0.processedIds + StoredIds(kept, t.ids)
          && s.parameter == (var j := LastOfKind(kept, WorkflowParameters);
                             if j.Some? then Some((kept[j.value], t.ids[j.value])) else s0.parameter)
          && s.analysis == (var j := LastOfKind(kept, ProcessedTable);
                            if j.Some? then Timed(s0.analysis, FileTimes(clock, kept[j.value].entry))
                            else s0.analysis))
  }

  /** The scan hands out one pool ID per kept file and stores the files as their kinds say. */
  lemma {:induction false} ScanShape(s0: ScanRun, files: seq<ScannedFile>, ctx: ScanContext)
    requires s0.error.None?
    ensures var kept := Kept(files);
      Shaped(s0, Scan(s0, files, ctx), kept,
             TakeIds(DataObjectType, s0.objectPool, ctx.threshold, ctx.refill, |kept|), ctx.clock)
  {
    if files != [] {
      var n := |files| - 1;
      ScanShape(s0, files[..n], ctx);
      ShapedStep(s0, files[..n], files[n], ctx);
      assert files == files[..n] + [files[n]];
    }
  }

  /** One more file keeps the run shaped. */
  lemma ShapedStep(s0: ScanRun, init: seq<ScannedFile>, f: ScannedFile, ctx: ScanContext)
    requires s0.error.None?
    requires Shaped(s0, Scan(s0, init, ctx), Kept(init),
                    TakeIds(DataObjectType, s0.objectPool, ctx.threshold, ctx.refill, |Kept(init)|), ctx.clock)
    ensures var files := init + [f];
      Shaped(s0, Scan(s0, files, ctx), Kept(files),
             TakeIds(DataObjectType, s0.objectPool, ctx.threshold, ctx.refill, |Kept(files)|), ctx.clock)
  {
    var files := init + [f];
    AppendLast(init, f);
    if f.kind != Ignored {
      var kf := f;
      var kept := Kept(init);
      assert Kept(files) == kept + [kf];
      var t := TakeIds(DataObjectType, s0.objectPool, ctx.threshold, ctx.refill, |kept|);
      var t' := TakeIds(DataObjectType, s0.objectPool, ctx.threshold, ctx.refill, |kept| + 1);
      if t.error.Some? {
        TakeIdsStops(DataObjectType, s0.objectPool, ctx.threshold, ctx.refill, |kept|, |kept| + 1);
      } else {
        TakeIdsNext(DataObjectType, s0.objectPool, ctx.threshold, ctx.refill, |kept|, t.ids, t.pool);
      }
      ShapedKept(s0, Scan(s0, init, ctx), kept, kf, ctx, t, t');
    } else {
      assert Kept(files) == Kept(init);
    }
  }

  /**
   * A kept file keeps the run shaped: `t'` is `t` with one more take,
   * so the file stops the run on a failed take or is stored as its kind says.
   */
  lemma ShapedKept(s0: ScanRun, s: ScanRun, kept: seq<ScannedFile>, kf: ScannedFile, ctx: ScanContext, t: Taken, t': Taken)
    requires s0.error.None? && kf.kind != Ignored
    requires Shaped(s0, s, kept, t, ctx.clock)
    requires t.error.Some? ==> t' == t
    requires t.error.None? ==>
      var next := TakeId(DataObjectType, t.pool, ctx.threshold, ctx.refill);
      t' == match next.0
            case Ok(id) => Taken(t.ids + [id], None, next.1)
            case Err(e) => Taken(t.ids, Some(e), next.1)
    ensures Shaped(s0, StepKept(s, kf, ctx), kept + [kf], t', ctx.clock)
  {
    AppendLast(kept, kf);
    if t.error.None? {
      var next := TakeId(DataObjectType, t.pool, ctx.threshold, ctx.refill);
      if next.0.Ok? {
        AppendLast(t.ids, next.0.value);
        ShapedStored(s0, s.(objectPool := next.1, taken := s.taken + [next.0.value]), kept, kf, t.ids, next.0.value, ctx);
      }
    }
  }

  /** A kept file given the ID `id` is stored as its kind says. */
  lemma ShapedStored(s0: ScanRun, s: ScanRun, kept: seq<ScannedFile>, kf: ScannedFile, ids: seq<string>, id: string,
                     ctx: ScanContext)
    requires |ids| == |kept|
    requires s.stored == s0.stored + StoredPairs(kept, ids)
    requires s.processedIds == s0.processedIds + StoredIds(kept, ids)
    requires s.parameter == (var j := LastOfKind(kept, WorkflowParameters);
                             if j.Some? then Some((kept[j.value], ids[j.value])) else s0.parameter)
    requires s.analysis == (var j := LastOfKind(kept, ProcessedTable);
                            if j.Some? then Timed(s0.analysis, FileTimes(ctx.clock, kept[j.value].entry))
                            else s0.analysis)
    ensures var r := Classified(s, kf, id, ctx);
      var kept', ids' := kept + [kf], ids + [id];
      r.stored == s0.stored + StoredPairs(kept', ids')
      && r.processedIds == s0.processedIds + StoredIds(kept', ids')
      && r.parameter == (var j := LastOfKind(kept', WorkflowParameters);
                         if j.Some? then Some((kept'[j.value], ids'[j.value])) else s0.parameter)
      && r.analysis == (var j := LastOfKind(kept', ProcessedTable);
                        if j.Some? then Timed(s0.analysis, FileTimes(ctx.clock, kept'[j.value].entry))
                        else s0.analysis)
  {
    AppendLast(kept, kf);
    AppendLast(ids, id);
    var kept', ids' := kept + [kf], ids + [id];
    var listed := Listed(kf.kind);
    assert StoredPairs(kept', ids') == StoredPairs(kept, ids) + if listed then [(kf, id)] else [];
    assert StoredIds(kept', ids') == StoredIds(kept, ids) + if listed then [id] else [];
    AppendAssoc(s0.stored, StoredPairs(kept, ids), if listed then [(kf, id)] else []);
    AppendAssoc(s0.processedIds, StoredIds(kept, ids), if listed then [id] else []);
    var j := LastOfKind(kept, ProcessedTable);
    if kf.kind == ProcessedTable && j.Some? {
      TimedTwice(s0.analysis, FileTimes(ctx.clock, kept[j.value].entry), FileTimes(ctx.clock, kf.entry));
    }
  }

  /**
   * When the IDs handed out are distinct, the parameter file's ID is
   * never among the processed IDs.
   */
  lemma ParameterNotListed(kept: seq<ScannedFile>, ids: seq<string>)
    requires |kept| == |ids| && NoDuplicates(ids)
    ensures var j := LastOfKind(kept, WorkflowParameters);
      j.Some? ==> ids[j.value] !in StoredIds(kept, ids)
  {
    var j := LastOfKind(kept, WorkflowParameters);
    StoredMembers(kept, ids);
    if j.Some? {
      forall i | 0 <= i < |StoredIds(kept, ids)| ensures StoredIds(kept, ids)[i] != ids[j.value] {
        var p := StoredPairs(kept, ids)[i];
        assert p in StoredPairs(kept, ids);
        var m :| 0 <= m < |kept| && Listed(kept[m].kind) && p == (kept[m], ids[m]);
        assert m != j.value;
      }
    }
  }

  // ---------------------------------------------------------------------
  // Finishing a row: QC-fail pruning and the final appends
  // ---------------------------------------------------------------------

  /** The objects whose ID is not one of `ids`, in their original order. */
  function WithoutIds(objs: seq<Row>, ids: seq<string>): (r: seq<Row>)
    ensures |r| <= |objs|
  {
    if objs == [] then []
    else
      var last := objs[|objs| - 1];
      WithoutIds(objs[..|objs| - 1], ids) + if RecordId(last) in ids then [] else [last]
  }

  /** An object survives the pruning exactly when its ID is not listed. */
  lemma {:induction false} WithoutIdsMembers(objs: seq<Row>, ids: seq<string>)
    ensures forall o :: o in WithoutIds(objs, ids) <==> o in objs && RecordId(o) !in ids
  {
    if objs != [] {
      var init := objs[..|objs| - 1];
      WithoutIdsMembers(init, ids);
      assert objs == init + [objs[|objs| - 1]];
    }
  }

  /** Pruning works piece by piece, so the surviving objects keep their relative order. */
  lemma {:induction false} WithoutIdsAppend(a: seq<Row>, b: seq<Row>, ids: seq<string>)
    ensures WithoutIds(a + b, ids) == WithoutIds(a, ids) + WithoutIds(b, ids)
    decreases |b|
  {
    if b != [] {
      var init := b[..|b| - 1];
      var last := b[|b| - 1];
      assert (a + b)[..|a + b| - 1] == a + init;
      WithoutIdsAppend(a, init, ids);
      AppendAssoc(WithoutIds(a, ids), WithoutIds(init, ids), if RecordId(last) in ids then [] else [last]);
    } else {
      assert a + b == a;
    }
  }

  /** A set none of whose IDs is listed comes through the pruning unchanged. */
  lemma {:induction false} WithoutIdsKeepsUnlisted(objs: seq<Row>, ids: seq<string>)
    requires forall i :: 0 <= i < |objs| ==> RecordId(objs[i]) !in ids
    ensures WithoutIds(objs, ids) == objs
  {
    if objs != [] {
      WithoutIdsKeepsUnlisted(objs[..|objs| - 1], ids);
    }
  }

  /**
   * The end of one row of `run`: when the QC status is "fail", the
   * analysis loses `has_output` and every data object whose ID is a
   * processed ID is dropped; then, whatever the status, the mass
   * spectrometry record, the raw data object, the parameter object and
   * the analysis are appended.
   */
  method FinishRow(db: Database, analysis: SchemaObject, qcStatus: Value, processedIds: seq<string>,
                   massSpec: Row, rawDataObject: Row, parameterObject: Row)
    modifies db`dataObjectSet, db`dataGenerationSet, db`workflowExecutionSet, analysis`slots
    ensures var failed := qcStatus == Str("fail");
      var kept := if failed then WithoutIds(old(db.dataObjectSet), processedIds) else old(db.dataObjectSet);
      analysis.slots == (if failed then old(analysis.slots) - {"has_output"} else old(analysis.slots))
      && db.dataObjectSet == kept + [rawDataObject, parameterObject]
      && db.dataGenerationSet == old(db.dataGenerationSet) + [massSpec]
      && db.workflowExecutionSet == old(db.workflowExecutionSet) + [analysis.slots]
  {
    if qcStatus == Str("fail") {
      analysis.slots := analysis.slots - {"has_output"};
      db.dataObjectSet := WithoutIds(db.dataObjectSet, processedIds);
    }
    db.dataGenerationSet := db.dataGenerationSet + [massSpec];
    db.dataObjectSet := db.dataObjectSet + [rawDataObject];
    db.dataObjectSet := db.dataObjectSet + [parameterObject];
    db.workflowExecutionSet := db.workflowExecutionSet + [analysis.slots];
  }

  /**
   * After a failed QC the data-object set holds no processed object, keeps
   * every other object in order, and still ends with the raw data and
   * parameter objects.
   */
  lemma FailedQcPruned(before: seq<Row>, processed: seq<Row>, processedIds: seq<string>,
                       rawDataObject: Row, parameterObject: Row)
    requires forall i :: 0 <= i < |processed| ==> RecordId(processed[i]) in processedIds
    requires RecordId(parameterObject) !in processedIds && RecordId(rawDataObject) !in processedIds
    ensures var after := WithoutIds(before + processed, processedIds) + [rawDataObject, parameterObject];
      after == WithoutIds(before, processedIds) + [rawDataObject, parameterObject]
      && (forall o :: o in after && RecordId(o) in processedIds ==> false)
      && parameterObject in after && rawDataObject in after
  {
    WithoutIdsAppend(before, processed, processedIds);
    WithoutIdsNone(processed, processedIds);
    WithoutIdsMembers(before, processedIds);
  }

  /** Pruning a set whose every ID is listed leaves nothing. */
  lemma {:induction false} WithoutIdsNone(objs: seq<Row>, ids: seq<string>)
    requires forall i :: 0 <= i < |objs| ==> RecordId(objs[i]) in ids
    ensures WithoutIds(objs, ids) == []
  {
    if objs != [] {
      WithoutIdsNone(objs[..|objs| - 1], ids);
    }
  }
}
