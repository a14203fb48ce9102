/**
 * The base generator every mass-spectrometry generator extends: the
 * dictionary cleaning and record builders, file times, the stand-alone
 * screening of a database dump, manifest minting, metadata loading and the
 * wiring of outputs into already-built records.
 */
module MetadataGenerator {
  import opened Common
  import opened Frames
  import opened IdPool

  const DataObjectType: string := "nmdc:DataObject"
  const MetabolomicsAnalysisType: string := "nmdc:MetabolomicsAnalysis"
  const PortionOfSubstanceType: string := "nmdc:PortionOfSubstance"
  const QuantityValueType: string := "nmdc:QuantityValue"
  const ManifestType: string := "nmdc:Manifest"
  const CalibrationInformationType: string := "nmdc:CalibrationInformation"

  // ---------------------------------------------------------------------
  // clean_dict
  // ---------------------------------------------------------------------

  /** The values `clean_dict` drops: None and the empty string (and nothing else,
      so whitespace-only strings and NaN stay). */
  predicate Blank(v: Value)
  {
    v == Null || v == Str("")
  }

  /** `clean_dict`: the dictionary without its blank entries. */
  function CleanDict(d: Row): (r: Row)
    ensures forall k :: k in r <==> k in d && !Blank(d[k])
    ensures forall k :: k in r ==> r[k] == d[k]
  {
    map k | k in d && !Blank(d[k]) :: d[k]
  }

  /** Cleaning a cleaned dictionary changes nothing. */
  lemma CleanDictIdempotent(d: Row)
    ensures CleanDict(CleanDict(d)) == CleanDict(d)
  {
  }

  // ---------------------------------------------------------------------
  // generate_data_object
  // ---------------------------------------------------------------------

  /** The file facts `generate_data_object` reads from disk. */
  datatype FileFacts = FileFacts(name: string, sizeBytes: int, md5Checksum: string)

  /**
   * The dictionary of `generate_data_object`, cleaned: the given `url` when
   * there is one (even an empty one, which cleaning then drops), otherwise
   * the base URL followed by the file name.
   */
  function DataObjectRecord(id: string, dataCategory: string, dataObjectType: string, file: FileFacts,
                            description: string, baseUrl: string, wasGeneratedBy: Value,
                            alternativeId: Value, inManifest: Value, url: Option<string>): (r: Row)
    ensures "type" in r && "file_size_bytes" in r
    ensures r["type"] == Str(DataObjectType) && r["file_size_bytes"] == Int(file.sizeBytes)
    ensures ("id" in r <==> id != "") && ("id" in r ==> r["id"] == Str(id))
    ensures ("name" in r <==> file.name != "") && ("name" in r ==> r["name"] == Str(file.name))
    ensures url.Some? ==> ("url" in r <==> url.value != "") && ("url" in r ==> r["url"] == Str(url.value))
    ensures url.None? ==> ("url" in r <==> baseUrl + file.name != "") && ("url" in r ==> r["url"] == Str(baseUrl + file.name))
    ensures "was_generated_by" in r <==> !Blank(wasGeneratedBy)
    ensures "in_manifest" in r <==> !Blank(inManifest)
  {
    var d := map[
      "id" := Str(id),
      "data_category" := Str(dataCategory),
      "data_object_type" := Str(dataObjectType),
      "name" := Str(file.name),
      "description" := Str(description),
      "file_size_bytes" := Int(file.sizeBytes),
      "md5_checksum" := Str(file.md5Checksum),
      "url" := Str(if url.Some? then url.value else baseUrl + file.name),
      "type" := Str(DataObjectType),
      "was_generated_by" := wasGeneratedBy,
      "alternative_identifiers" := alternativeId,
      "in_manifest" := inManifest
    ];
    assert d["id"] == Str(id) && d["name"] == Str(file.name);
    assert d["url"] == Str(if url.Some? then url.value else baseUrl + file.name);
    assert d["type"] == Str(DataObjectType) && d["file_size_bytes"] == Int(file.sizeBytes);
    assert d["was_generated_by"] == wasGeneratedBy && d["in_manifest"] == inManifest;
    CleanDict(d)
  }

  /** A given URL always wins over the base URL, even when it is empty. */
  lemma DataObjectUrlPrecedence(id: string, dataCategory: string, dataObjectType: string, file: FileFacts,
                                description: string, baseUrl: string, wasGeneratedBy: Value,
                                alternativeId: Value, inManifest: Value, url: string)
    ensures var r := DataObjectRecord(id, dataCategory, dataObjectType, file, description, baseUrl,
                                      wasGeneratedBy, alternativeId, inManifest, Some(url));
      url == "" ==> "url" !in r
    ensures var r := DataObjectRecord(id, dataCategory, dataObjectType, file, description, baseUrl,
                                      wasGeneratedBy, alternativeId, inManifest, Some(url));
      url != "" ==> r["url"] == Str(url)
  {
  }

  /**
   * `generate_data_object` on the DataObject pool: one ID from the pool and
   * the record around it; a pool that cannot hand out an ID raises.
   */
  function DataObjectFromPool(pool: seq<string>, threshold: nat, refill: Refill, dataCategory: string,
                              dataObjectType: string, file: FileFacts, description: string, baseUrl: string,
                              wasGeneratedBy: Value, alternativeId: Value, inManifest: Value, url: Option<string>)
    : (r: (Result<Row>, seq<string>))
    ensures r.1 == TakeId(DataObjectType, pool, threshold, refill).1
    ensures r.0.Err? <==> TakeId(DataObjectType, pool, threshold, refill).0.Err?
    ensures r.0.Ok? ==>
      r.0.value == DataObjectRecord(TakeId(DataObjectType, pool, threshold, refill).0.value, dataCategory,
                                    dataObjectType, file, description, baseUrl, wasGeneratedBy, alternativeId,
                                    inManifest, url)
  {
    var taken := TakeId(DataObjectType, pool, threshold, refill);
    match taken.0
    case Ok(id) => (Ok(DataObjectRecord(id, dataCategory, dataObjectType, file, description, baseUrl,
                                        wasGeneratedBy, alternativeId, inManifest, url)), taken.1)
    case Err(e) => (Err(e), taken.1)
  }

  method GenerateDataObject(pool: IDPool, mint: Minter, dataCategory: string, dataObjectType: string,
                            file: FileFacts, description: string, baseUrl: string, wasGeneratedBy: Value,
                            alternativeId: Value, inManifest: Value, url: Option<string>)
    returns (r: Result<Row>)
    modifies pool
    ensures (r, pool.Pool(DataObjectType))
      == DataObjectFromPool(old(pool.Pool(DataObjectType)), pool.refillThreshold,
                            DefaultRefill(mint, DataObjectType, pool.poolSize), dataCategory, dataObjectType,
                            file, description, baseUrl, wasGeneratedBy, alternativeId, inManifest, url)
    ensures forall u :: u != DataObjectType ==> pool.Pool(u) == old(pool.Pool(u))
  {
    var before := pool.Pool(DataObjectType);
    var id, _ := pool.GetId(DataObjectType, mint);
    r := DataObjectFromPool(before, pool.refillThreshold, DefaultRefill(mint, DataObjectType, pool.poolSize),
                            dataCategory, dataObjectType, file, description, baseUrl, wasGeneratedBy,
                            alternativeId, inManifest, url).0;
  }

  // ---------------------------------------------------------------------
  // Shared by the calibration and processed-data builders
  // ---------------------------------------------------------------------

  /** The file name, size and checksum of the file at a path, as the file system reports them. */
  type FileSystem = string -> FileFacts

  /** The pool settings of the two record types the calibration builders mint. */
  datatype PoolSettings = PoolSettings(threshold: nat, objectRefill: Refill, calibrationRefill: Refill)

  function PoolSettingsOf(pool: IDPool, mint: Minter): PoolSettings
  {
    PoolSettings(pool.refillThreshold, DefaultRefill(mint, DataObjectType, pool.poolSize),
                 DefaultRefill(mint, CalibrationInformationType, pool.poolSize))
  }

  /** The `id` a record holds ("" when cleaning dropped an empty one). */
  function RecordId(r: Row): string
  {
    if "id" in r && r["id"].Str? then r["id"].s else ""
  }

  /**
   * The `url` argument a URL cell gives: None stays None
   * (the URL is then built from the base URL); the schema class stores any
   * other scalar as its `str`, so an empty cell (NaN) becomes "nan".
   */
  function UrlArgument(cell: Value): Option<string>
  {
    match cell
    case Null => None
    case NaN => Some("nan")
    case Str(u) => Some(u)
    case Int(i) => Some(IntToString(i))
    case Bool(b) => Some(if b then "True" else "False")
    case List(_) => None
    case Dict(_) => None
  }

  // ---------------------------------------------------------------------
  // generate_portion_of_substance
  // ---------------------------------------------------------------------

  /** An `nmdc.QuantityValue` built from a value and a unit. */
  function Quantity(value: Value, unit: Value): Value
  {
    Dict(map["type" := Str(QuantityValueType), "has_numeric_value" := value, "has_unit" := unit])
  }

  /** The amounts `generate_portion_of_substance` may record. */
  datatype Amounts = Amounts(
    volumeValue: Value, volumeUnit: Value,
    finalConcentrationValue: Value, sourceConcentrationValue: Value, concentrationUnit: Value,
    massValue: Value, massUnit: Value)

  /** Slot `slot` of `r` holds the quantity exactly when its value and unit are both truthy. */
  predicate QuantitySlot(r: Row, slot: string, value: Value, unit: Value)
  {
    (slot in r <==> Truthy(value) && Truthy(unit)) && (slot in r ==> r[slot] == Quantity(value, unit))
  }

  /** `slot` set to the quantity when both value and unit are truthy. */
  function OptionalQuantity(d: Row, slot: string, value: Value, unit: Value): (r: Row)
    requires slot !in d
    ensures QuantitySlot(r, slot, value, unit)
    ensures r.Keys <= d.Keys + {slot}
  {
    if Truthy(value) && Truthy(unit) then d[slot := Quantity(value, unit)] else d
  }

  /** Setting one optional quantity leaves every other slot as it was. */
  lemma OtherSlotKept(d: Row, slot: string, value: Value, unit: Value, other: string)
    requires slot !in d && other != slot
    ensures var r := OptionalQuantity(d, slot, value, unit);
      (other in r <==> other in d) && (other in d ==> r[other] == d[other])
  {
  }

  lemma QuantitySlotKept(d: Row, slot: string, value: Value, unit: Value, other: string, otherValue: Value, otherUnit: Value)
    requires slot !in d && other != slot && QuantitySlot(d, other, otherValue, otherUnit)
    ensures QuantitySlot(OptionalQuantity(d, slot, value, unit), other, otherValue, otherUnit)
  {
    OtherSlotKept(d, slot, value, unit, other);
  }

  /** The slot names of a portion of substance are distinct. */
  lemma PortionSlotsDistinct()
    ensures "known_as" != "type" && "known_as" != "volume" && "known_as" != "final_concentration"
      && "known_as" != "source_concentration" && "known_as" != "mass" && "known_as" != "substance_role"
      && "type" != "volume" && "type" != "final_concentration" && "type" != "source_concentration"
      && "type" != "mass" && "type" != "substance_role" && "volume" != "final_concentration"
      && "volume" != "source_concentration" && "volume" != "mass" && "volume" != "substance_role"
      && "final_concentration" != "source_concentration" && "final_concentration" != "mass" && "final_concentration" != "substance_role"
      && "source_concentration" != "mass" && "source_concentration" != "substance_role" && "mass" != "substance_role"
  {
  }

  /** The role slot is none of the other slots of a portion of substance. */
  lemma RoleSlotDistinct()
    ensures "substance_role" !in {"known_as", "type", "volume", "final_concentration", "source_concentration", "mass"}
  {
    PortionSlotsDistinct();
  }

  /**
   * `generate_portion_of_substance`: the name and type, then each quantity
   * only when both its value and its unit are truthy (both concentrations
   * use the one concentration unit), then the role when truthy.
   */
  function PortionOfSubstance(substanceName: Value, a: Amounts, substanceRole: Value): (r: Row)
    ensures "known_as" in r && "type" in r
    ensures r["known_as"] == substanceName && r["type"] == Str(PortionOfSubstanceType)
    ensures QuantitySlot(r, "volume", a.volumeValue, a.volumeUnit)
    ensures QuantitySlot(r, "final_concentration", a.finalConcentrationValue, a.concentrationUnit)
    ensures QuantitySlot(r, "source_concentration", a.sourceConcentrationValue, a.concentrationUnit)
    ensures QuantitySlot(r, "mass", a.massValue, a.massUnit)
    ensures "substance_role" in r <==> Truthy(substanceRole)
    ensures "substance_role" in r ==> r["substance_role"] == substanceRole
  {
    var d0 := map["known_as" := substanceName, "type" := Str(PortionOfSubstanceType)];
    PortionStartFree(d0, substanceName);
    var d4 := WithQuantities(d0, a);
    RoleSlotDistinct();
    var r := WithRole(d4, substanceRole);
    PortionNameKept(d0, d4, r, substanceName, substanceRole);
    PortionQuantitiesKept(d4, r, a, substanceRole);
    r
  }

  /** The name and type slots hold none of the later slots. */
  lemma PortionStartFree(d0: Row, name: Value)
    requires d0 == map["known_as" := name, "type" := Str(PortionOfSubstanceType)]
    ensures "volume" !in d0 && "final_concentration" !in d0 && "source_concentration" !in d0 && "mass" !in d0
    ensures d0.Keys == {"known_as", "type"}
  {
    PortionSlotsDistinct();
  }

  /** The name and type survive the quantities and the role. */
  lemma PortionNameKept(d0: Row, d4: Row, r: Row, name: Value, role: Value)
    requires d0 == map["known_as" := name, "type" := Str(PortionOfSubstanceType)]
    requires forall k :: k in d0 ==> k in d4 && d4[k] == d0[k]
    requires "substance_role" !in d4 && r == WithRole(d4, role)
    ensures "known_as" in r && "type" in r
    ensures r["known_as"] == name && r["type"] == Str(PortionOfSubstanceType)
  {
    RoleSlotDistinct();
    assert "known_as" in d0 && "type" in d0;
  }

  /** The quantities survive the role. */
  lemma PortionQuantitiesKept(d4: Row, r: Row, a: Amounts, role: Value)
    requires "substance_role" !in d4 && r == WithRole(d4, role)
    requires QuantitySlot(d4, "volume", a.volumeValue, a.volumeUnit)
    requires QuantitySlot(d4, "final_concentration", a.finalConcentrationValue, a.concentrationUnit)
    requires QuantitySlot(d4, "source_concentration", a.sourceConcentrationValue, a.concentrationUnit)
    requires QuantitySlot(d4, "mass", a.massValue, a.massUnit)
    ensures QuantitySlot(r, "volume", a.volumeValue, a.volumeUnit)
    ensures QuantitySlot(r, "final_concentration", a.finalConcentrationValue, a.concentrationUnit)
    ensures QuantitySlot(r, "source_concentration", a.sourceConcentrationValue, a.concentrationUnit)
    ensures QuantitySlot(r, "mass", a.massValue, a.massUnit)
  {
    RoleSlotDistinct();
  }

  /** `substance_role` set when the role is truthy; every other slot kept. */
  function WithRole(d: Row, role: Value): (r: Row)
    requires "substance_role" !in d
    ensures forall k :: k != "substance_role" ==> (k in r <==> k in d) && (k in d ==> r[k] == d[k])
    ensures "substance_role" in r <==> Truthy(role)
    ensures "substance_role" in r ==> r["substance_role"] == role
  {
    if Truthy(role) then d["substance_role" := role] else d
  }

  /** The four optional quantities of a portion of substance, in order, on top of `d`. */
  function WithQuantities(d: Row, a: Amounts): (r: Row)
    requires "volume" !in d && "final_concentration" !in d && "source_concentration" !in d && "mass" !in d
    ensures QuantitySlot(r, "volume", a.volumeValue, a.volumeUnit)
    ensures QuantitySlot(r, "final_concentration", a.finalConcentrationValue, a.concentrationUnit)
    ensures QuantitySlot(r, "source_concentration", a.sourceConcentrationValue, a.concentrationUnit)
    ensures QuantitySlot(r, "mass", a.massValue, a.massUnit)
    ensures r.Keys <= d.Keys + {"volume", "final_concentration", "source_concentration", "mass"}
    ensures forall k :: k in d ==> k in r && r[k] == d[k]
  {
    PortionSlotsDistinct();
    var d1 := OptionalQuantity(d, "volume", a.volumeValue, a.volumeUnit);
    var d2 := OptionalQuantity(d1, "final_concentration", a.finalConcentrationValue, a.concentrationUnit);
    QuantitySlotKept(d1, "final_concentration", a.finalConcentrationValue, a.concentrationUnit,
                     "volume", a.volumeValue, a.volumeUnit);
    var d3 := OptionalQuantity(d2, "source_concentration", a.sourceConcentrationValue, a.concentrationUnit);
    QuantitySlotKept(d2, "source_concentration", a.sourceConcentrationValue, a.concentrationUnit,
                     "volume", a.volumeValue, a.volumeUnit);
    QuantitySlotKept(d2, "source_concentration", a.sourceConcentrationValue, a.concentrationUnit,
                     "final_concentration", a.finalConcentrationValue, a.concentrationUnit);
    var d4 := OptionalQuantity(d3, "mass", a.massValue, a.massUnit);
    QuantitySlotKept(d3, "mass", a.massValue, a.massUnit, "volume", a.volumeValue, a.volumeUnit);
    QuantitySlotKept(d3, "mass", a.massValue, a.massUnit,
                     "final_concentration", a.finalConcentrationValue, a.concentrationUnit);
    QuantitySlotKept(d3, "mass", a.massValue, a.massUnit,
                     "source_concentration", a.sourceConcentrationValue, a.concentrationUnit);
    d4
  }

  /** When both concentrations are recorded they carry the same unit, and a
      falsy concentration unit records neither. */
  lemma ConcentrationsShareUnit(substanceName: Value, a: Amounts, substanceRole: Value)
    ensures var r := PortionOfSubstance(substanceName, a, substanceRole);
      ("final_concentration" in r && "source_concentration" in r ==>
         r["final_concentration"].entries["has_unit"] == r["source_concentration"].entries["has_unit"])
      && (!Truthy(a.concentrationUnit) ==> "final_concentration" !in r && "source_concentration" !in r)
  {
  }

  // ---------------------------------------------------------------------
  // generate_metabolomics_analysis
  // ---------------------------------------------------------------------

  /** The workflow facts a generator subclass fixes. */
  datatype Workflow = Workflow(analysisName: string, description: string, gitUrl: string,
                               version: Value, category: string)

  /** What one analysis record links to. */
  datatype AnalysisLinks = AnalysisLinks(
    clusterName: string, rawDataName: string, rawDataId: string, dataGenIdList: Value,
    processedDataId: string, parameterDataId: string, processingInstitution: string,
    calibrationId: Value, metaboliteIdentifications: Value)

  /** The slots of an analysis record that describe the workflow rather than this run. */
  function WorkflowSlots(w: Workflow, links: AnalysisLinks, analysisType: string): (d: Row)
    ensures "uses_calibration" !in d && "has_metabolite_identifications" !in d
  {
    map[
      "description" := Str(w.description),
      "processing_institution" := Str(links.processingInstitution),
      "execution_resource" := Str(links.clusterName),
      "git_url" := Str(w.gitUrl),
      "version" := w.version,
      "was_informed_by" := links.dataGenIdList,
      "type" := Str(analysisType),
      "metabolomics_analysis_category" := Str(w.category)
    ]
  }

  /** The dictionary `generate_metabolomics_analysis` assembles before cleaning. */
  function AnalysisDict(w: Workflow, id: string, links: AnalysisLinks, analysisType: string): (d: Row)
    ensures "id" in d && d["id"] == Str(id)
    ensures "has_input" in d && d["has_input"] == List([Str(links.rawDataId), Str(links.parameterDataId)])
    ensures "has_output" in d && d["has_output"] == List([Str(links.processedDataId)])
    ensures "started_at_time" in d && d["started_at_time"] == Str("placeholder")
    ensures "uses_calibration" in d <==> links.calibrationId != Null
    ensures "uses_calibration" in d ==> d["uses_calibration"] == links.calibrationId
    ensures "has_metabolite_identifications" in d <==> links.metaboliteIdentifications != Null
    ensures "has_metabolite_identifications" in d ==> d["has_metabolite_identifications"] == links.metaboliteIdentifications
  {
    var run := map[
      "name" := Str(w.analysisName + " for " + links.rawDataName),
      "started_at_time" := Str("placeholder"),
      "ended_at_time" := Str("placeholder"),
      "has_output" := List([Str(links.processedDataId)]),
      "has_input" := List([Str(links.rawDataId), Str(links.parameterDataId)]),
      "id" := Str(id)
    ];
    var d := WorkflowSlots(w, links, analysisType) + run;
    assert "uses_calibration" !in d && "has_metabolite_identifications" !in d;
    var d1 := if links.calibrationId != Null then d["uses_calibration" := links.calibrationId] else d;
    if links.metaboliteIdentifications != Null
    then d1["has_metabolite_identifications" := links.metaboliteIdentifications] else d1
  }

  /**
   * The cleaned dictionary of `generate_metabolomics_analysis` for the ID
   * `id`: inputs are the raw data then the parameter file, the output is the
   * processed data, and the calibration and identifications are present only
   * when given (and not blank).
   */
  function MetabolomicsAnalysisRecord(w: Workflow, id: string, links: AnalysisLinks, analysisType: string): (r: Row)
    ensures ("id" in r <==> id != "") && ("id" in r ==> r["id"] == Str(id))
    ensures "has_input" in r && "has_output" in r && "started_at_time" in r
    ensures r["has_input"] == List([Str(links.rawDataId), Str(links.parameterDataId)])
    ensures r["has_output"] == List([Str(links.processedDataId)])
    ensures r["started_at_time"] == Str("placeholder")
    ensures "uses_calibration" in r <==> !Blank(links.calibrationId)
    ensures "uses_calibration" in r ==> r["uses_calibration"] == links.calibrationId
    ensures "has_metabolite_identifications" in r <==> !Blank(links.metaboliteIdentifications)
    ensures "has_metabolite_identifications" in r ==> r["has_metabolite_identifications"] == links.metaboliteIdentifications
  {
    CleanDict(AnalysisDict(w, id, links, analysisType))
  }

  /**
   * `generate_metabolomics_analysis`: the incremented ID when one is given,
   * without touching the pool; otherwise one ID from the MetabolomicsAnalysis
   * pool followed by ".1".
   */
  method GenerateMetabolomicsAnalysis(pool: IDPool, mint: Minter, w: Workflow, links: AnalysisLinks,
                                      incrementedId: Option<string>, analysisType: string)
    returns (r: Result<Row>)
    modifies pool
    ensures incrementedId.Some? ==>
      pool.pools == old(pool.pools) && r == Ok(MetabolomicsAnalysisRecord(w, incrementedId.value, links, analysisType))
    ensures incrementedId.None? ==>
      var taken := TakeId(MetabolomicsAnalysisType, old(pool.Pool(MetabolomicsAnalysisType)), pool.refillThreshold,
                          DefaultRefill(mint, MetabolomicsAnalysisType, pool.poolSize));
      pool.Pool(MetabolomicsAnalysisType) == taken.1
      && r == match taken.0
              case Ok(minted) => Ok(MetabolomicsAnalysisRecord(w, minted + ".1", links, analysisType))
              case Err(e) => Err(e)
    ensures forall u :: u != MetabolomicsAnalysisType ==> pool.Pool(u) == old(pool.Pool(u))
  {
    if incrementedId.Some? {
      return Ok(MetabolomicsAnalysisRecord(w, incrementedId.value, links, analysisType));
    }
    var id, _ := pool.GetId(MetabolomicsAnalysisType, mint);
    match id
    case Ok(minted) =>
      r := Ok(MetabolomicsAnalysisRecord(w, minted + ".1", links, analysisType));
    case Err(e) =>
      r := Err(e);
  }

  // ---------------------------------------------------------------------
  // get_start_end_times
  // ---------------------------------------------------------------------

  /** The modification, change and (where the platform keeps one) birth time of the file at a path. */
  type FileClock = string -> (int, int, Option<int>)

  /** `min` of a non-empty list of timestamps. */
  function Earliest(ts: seq<int>): (m: int)
    requires ts != []
    ensures m in ts && forall t :: t in ts ==> m <= t
  {
    if |ts| == 1 then ts[0]
    else
      var rest := Earliest(ts[1..]);
      assert forall t :: t in ts ==> t == ts[0] || t in ts[1..];
      if ts[0] <= rest then ts[0] else rest
  }

  /**
   * `get_start_end_times` on a file's modification, change and (where the
   * platform has one) birth time: the start is the earliest of them and the
   * end the modification time, so the start never comes after the end.
   */
  function StartEndTimes(mtime: int, ctime: int, birthtime: Option<int>): (r: (int, int))
    ensures r.1 == mtime && r.0 <= r.1
    ensures r.0 <= ctime && (birthtime.Some? ==> r.0 <= birthtime.value)
    ensures r.0 == mtime || r.0 == ctime || birthtime == Some(r.0)
  {
    var timestamps := [mtime, ctime] + if birthtime.Some? then [birthtime.value] else [];
    assert mtime in timestamps && ctime in timestamps;
    assert birthtime.Some? ==> birthtime.value in timestamps;
    assert forall t :: t in timestamps ==> t == mtime || t == ctime || birthtime == Some(t);
    (Earliest(timestamps), mtime)
  }

  // ---------------------------------------------------------------------
  // _validate_json_no_api
  // ---------------------------------------------------------------------

  /** The schema validator run on one collection: its error messages. */
  type CollectionValidator = (string, Value) -> seq<string>

  /** Instantiating the `Database` class from the dump: the exception message, or None. */
  type DatabaseBuilder = seq<(string, Value)> -> Option<string>

  datatype Validation = AllOkay | Errors(detail: map<string, seq<string>>) | BuildFailed(message: string)

  /** The JSON-LD `@type` entry that marks a dump as a `Database`. */
  predicate DatabaseMarker(name: string, docs: Value)
  {
    name == "@type" && (docs == Str("Database") || docs == Str("nmdc:Database"))
  }

  function UnknownCollectionMessage(name: string): string
  {
    "'" + name + "' is not a known schema collection name"
  }

  const NotAListMessage: string := "value must be a list"
  const NotDictsMessage: string := "all elements of list must be dicts"

  /**
   * The messages recorded for a known collection: the validator's, then
   * one more when a non-empty value is not a list, or is a list with an
   * element that is not a dictionary.
   */
  function CollectionErrors(name: string, docs: Value, validator: CollectionValidator): (errs: seq<string>)
    ensures |errs| >= |validator(name, docs)| && errs[..|validator(name, docs)|] == validator(name, docs)
    ensures !Truthy(docs) ==> errs == validator(name, docs)
    ensures Truthy(docs) && !docs.List? ==> errs == validator(name, docs) + [NotAListMessage]
    ensures Truthy(docs) && docs.List? ==>
      errs == validator(name, docs) + if forall d :: d in docs.items ==> d.Dict? then [] else [NotDictsMessage]
  {
    var base := validator(name, docs);
    if !Truthy(docs) then base
    else if !docs.List? then base + [NotAListMessage]
    else if forall d :: d in docs.items ==> d.Dict? then base
    else base + [NotDictsMessage]
  }

  /** The error dictionary after screening the first `n` collections of the dump. */
  function Screen(docs: seq<(string, Value)>, n: nat, known: set<string>, validator: CollectionValidator): map<string, seq<string>>
    requires n <= |docs|
  {
    if n == 0 then map[]
    else
      var errors := Screen(docs, n - 1, known, validator);
      var (name, value) := docs[n - 1];
      if name !in known then
        if DatabaseMarker(name, value) then errors
        else errors[name := [UnknownCollectionMessage(name)]]
      else errors[name := CollectionErrors(name, value, validator)]
  }

  /** The dump without its `@type` entry, as handed to the `Database` class. */
  function WithoutMarker(docs: seq<(string, Value)>): (r: seq<(string, Value)>)
    ensures forall e :: e in r <==> e in docs && e.0 != "@type"
  {
    if docs == [] then []
    else (if docs[0].0 == "@type" then [] else [docs[0]]) + WithoutMarker(docs[1..])
  }

  predicate AllEmpty(errors: map<string, seq<string>>)
  {
    forall name :: name in errors ==> errors[name] == []
  }

  /**
   * `_validate_json_no_api`: screens every collection of the dump in order,
   * then reports "All Okay!" when every recorded list is empty and the
   * `Database` class accepts the dump, and the errors otherwise.
   */
  method ValidateJsonNoApi(docs: seq<(string, Value)>, known: set<string>, validator: CollectionValidator,
                           build: DatabaseBuilder)
    returns (result: Validation)
    ensures var errors := Screen(docs, |docs|, known, validator);
      result == if !AllEmpty(errors) then Errors(errors)
                else match build(WithoutMarker(docs))
                     case None => AllOkay
                     case Some(message) => BuildFailed(message)
  {
    var validationErrors: map<string, seq<string>> := map[];
    var i := 0;
    while i < |docs|
      invariant i <= |docs|
      invariant validationErrors == Screen(docs, i, known, validator)
    {
      var (collName, collDocs) := docs[i];
      if collName !in known {
        if !DatabaseMarker(collName, collDocs) {
          validationErrors := validationErrors[collName := [UnknownCollectionMessage(collName)]];
        }
      } else {
        var errors := validator(collName, collDocs);
        if Truthy(collDocs) {
          if !collDocs.List? {
            errors := errors + [NotAListMessage];
          } else if !(forall d :: d in collDocs.items ==> d.Dict?) {
            errors := errors + [NotDictsMessage];
          }
        }
        validationErrors := validationErrors[collName := errors];
      }
      i := i + 1;
    }
    if AllEmpty(validationErrors) {
      match build(WithoutMarker(docs))
      case None => result := AllOkay;
      case Some(message) => result := BuildFailed(message);
    } else {
      result := Errors(validationErrors);
    }
  }

  function Names(docs: seq<(string, Value)>): seq<string>
  {
    seq(|docs|, i requires 0 <= i < |docs| => docs[i].0)
  }

  /**
   * What screening records for a collection named once in the dump: the
   * unknown-name message for an unknown name, nothing for the `Database`
   * marker, and the collection's messages for a known name.
   */
  lemma {:induction false} ScreenEntry(docs: seq<(string, Value)>, n: nat, known: set<string>,
                                       validator: CollectionValidator, i: nat)
    requires n <= |docs| && i < n && NoDuplicates(Names(docs))
    ensures var (name, value) := docs[i];
      var errors := Screen(docs, n, known, validator);
      (name !in known && DatabaseMarker(name, value) ==> name !in errors)
      && (name !in known && !DatabaseMarker(name, value) ==>
            name in errors && errors[name] == [UnknownCollectionMessage(name)])
      && (name in known ==> name in errors && errors[name] == CollectionErrors(name, value, validator))
  {
    if i < n - 1 {
      ScreenEntry(docs, n - 1, known, validator, i);
      assert Names(docs)[i] != Names(docs)[n - 1];
    } else {
      ScreenKeys(docs, n - 1, known, validator);
      forall j | 0 <= j < n - 1
        ensures docs[j].0 != docs[i].0
      {
        assert Names(docs)[j] != Names(docs)[i];
      }
    }
  }

  /** Every name screening records is a collection of the dump. */
  lemma {:induction false} ScreenKeys(docs: seq<(string, Value)>, n: nat, known: set<string>, validator: CollectionValidator)
    requires n <= |docs|
    ensures forall name :: name in Screen(docs, n, known, validator) ==> exists i :: 0 <= i < n && docs[i].0 == name
  {
    if n > 0 {
      ScreenKeys(docs, n - 1, known, validator);
    }
  }

  // ---------------------------------------------------------------------
  // load_metadata
  // ---------------------------------------------------------------------

  /** `df[c].is_unique` (NaN counts as one value, so two NaNs are a duplicate). */
  predicate IsUnique(t: Table, c: string)
  {
    NoDuplicates(Column(t, c))
  }

  /** The uniqueness check of `load_metadata`: KeyError for the first listed
      column the frame lacks, ValueError for the first that has a duplicate. */
  function CheckUnique(t: Table, columns: seq<string>): (r: Option<Error>)
    ensures r.None? <==> forall k :: 0 <= k < |columns| ==> columns[k] in t.columns && IsUnique(t, columns[k])
    ensures r.Some? ==> exists k :: 0 <= k < |columns| && r.value.names == [columns[k]]
                          && (r.value.kind == KeyError <==> columns[k] !in t.columns)
                          && (r.value.kind == ValueError <==> columns[k] in t.columns && !IsUnique(t, columns[k]))
  {
    if columns == [] then None
    else if columns[0] !in t.columns then Some(Error(KeyError, [columns[0]]))
    else if !IsUnique(t, columns[0]) then Some(Error(ValueError, [columns[0]]))
    else
      var rest := CheckUnique(t, columns[1..]);
      assert forall k :: 1 <= k < |columns| ==> columns[k] == columns[1..][k - 1];
      rest
  }

  const TestStudies: string := "['nmdc:sty-00-000001']"

  /**
   * `load_metadata` on the parsed CSV (None when the file is missing): the
   * uniqueness check, then in test mode the placeholder study on every row.
   * Outside test mode the sample check and study lookup go through the
   * API, given here as `associate`.
   */
  function LoadMetadata(csv: Option<Table>, uniqueColumns: seq<string>, test: bool,
                        associate: Table -> Result<Table>): (r: Result<Table>)
    requires csv.Some? ==> WellFormed(csv.value)
    ensures csv.None? ==> r.Err? && r.error.kind == FileNotFoundError
    ensures csv.Some? && CheckUnique(csv.value, uniqueColumns).Some? ==> r == Err(CheckUnique(csv.value, uniqueColumns).value)
    ensures csv.Some? && CheckUnique(csv.value, uniqueColumns).None? && test ==>
      r.Ok? && |r.value.rows| == |csv.value.rows| && "associated_studies" in r.value.columns
      && forall i :: 0 <= i < |r.value.rows| ==>
           r.value.rows[i] == csv.value.rows[i]["associated_studies" := Str(TestStudies)]
  {
    match csv
    case None => Raise(FileNotFoundError)
    case Some(t) =>
      match CheckUnique(t, uniqueColumns)
      case Some(e) => Err(e)
      case None =>
        if test then Ok(AssignColumn(t, "associated_studies", Str(TestStudies)))
        else associate(t)
  }

  // ---------------------------------------------------------------------
  // check_manifest / generate_manifest
  // ---------------------------------------------------------------------

  /** The (manifest_name, manifest_id) pair of every row; a missing column reads as None. */
  function NamePairs(t: Table): (pairs: seq<(Value, Value)>)
    ensures |pairs| == |t.rows|
    ensures forall i :: 0 <= i < |t.rows| ==> pairs[i] == (Get(t.rows[i], "manifest_name"), Get(t.rows[i], "manifest_id"))
  {
    seq(|t.rows|, i requires 0 <= i < |t.rows| => (Get(t.rows[i], "manifest_name"), Get(t.rows[i], "manifest_id")))
  }

  /**
   * The dictionary filled from the distinct pairs: each name maps to the ID
   * of its last pair, since a later assignment overwrites an earlier one.
   */
  function LastIds(pairs: seq<(Value, Value)>): (ids: map<Value, Value>)
    ensures ids.Keys == set p | p in pairs :: p.0
  {
    if pairs == [] then map[]
    else
      var init := LastIds(pairs[..|pairs| - 1]);
      assert forall p :: p in pairs <==> p in pairs[..|pairs| - 1] || p == pairs[|pairs| - 1];
      init[pairs[|pairs| - 1].0 := pairs[|pairs| - 1].1]
  }

  /** The dictionary's key order: names in order of first occurrence. */
  function KeyOrder(pairs: seq<(Value, Value)>): (names: seq<Value>)
    ensures NoDuplicates(names)
    ensures forall n :: n in names <==> n in LastIds(pairs)
  {
    if pairs == [] then []
    else
      var init := KeyOrder(pairs[..|pairs| - 1]);
      assert forall p :: p in pairs <==> p in pairs[..|pairs| - 1] || p == pairs[|pairs| - 1];
      if pairs[|pairs| - 1].0 in init then init else init + [pairs[|pairs| - 1].0]
  }

  /** A name's ID is the ID of the last pair with that name. */
  lemma {:induction false} LastIdsLastWins(pairs: seq<(Value, Value)>, j: nat)
    requires j < |pairs|
    requires forall k :: j < k < |pairs| ==> pairs[k].0 != pairs[j].0
    ensures LastIds(pairs)[pairs[j].0] == pairs[j].1
  {
    if j < |pairs| - 1 {
      var init := pairs[..|pairs| - 1];
      assert forall k :: j < k < |init| ==> init[k] == pairs[k];
      LastIdsLastWins(init, j);
      assert init[j] == pairs[j];
    }
  }

  /** A name the dictionary already holds an ID for (`is not None` in the source, corrected to `pd.isnull`). */
  predicate HasManifestId(id: Value)
  {
    !IsNull(id)
  }

  /** The names, in key order, that need a new manifest. */
  function MissingIds(names: seq<Value>, ids: map<Value, Value>): (missing: seq<Value>)
    requires forall n :: n in names ==> n in ids
    ensures forall n :: n in missing <==> n in names && !HasManifestId(ids[n])
    ensures NoDuplicates(names) ==> NoDuplicates(missing)
    ensures |missing| <= |names|
  {
    if names == [] then []
    else
      var init := MissingIds(names[..|names| - 1], ids);
      var last := names[|names| - 1];
      assert forall n :: n in names <==> n in names[..|names| - 1] || n == last;
      if HasManifestId(ids[last]) then init else init + [last]
  }

  /** The dictionary after the minted IDs are recorded for the first `|minted|` missing names. */
  function Resolve(ids: map<Value, Value>, missing: seq<Value>, minted: seq<string>): (r: map<Value, Value>)
    requires |minted| <= |missing|
    ensures ids.Keys <= r.Keys
  {
    if minted == [] then ids
    else Resolve(ids, missing, minted[..|minted| - 1])[missing[|minted| - 1] := Str(minted[|minted| - 1])]
  }

  /** A missing name gets the ID minted for it; any other name keeps its ID. */
  lemma {:induction false} ResolveAt(ids: map<Value, Value>, missing: seq<Value>, minted: seq<string>, n: Value)
    requires |minted| <= |missing| && NoDuplicates(missing) && n in ids
    ensures forall j :: 0 <= j < |minted| && missing[j] == n ==> Resolve(ids, missing, minted)[n] == Str(minted[j])
    ensures n !in missing[..|minted|] ==> Resolve(ids, missing, minted)[n] == ids[n]
  {
    if minted != [] {
      ResolveAt(ids, missing, minted[..|minted| - 1], n);
      assert missing[..|minted|] == missing[..|minted| - 1] + [missing[|minted| - 1]];
    }
  }

  function ManifestRecord(id: string, name: Value): Row
  {
    map["id" := Str(id), "name" := name, "type" := Str(ManifestType), "manifest_category" := Str("instrument_run")]
  }

  /** One manifest per minted ID, named after the missing name it was minted for. */
  function ManifestRecords(missing: seq<Value>, minted: seq<string>): (records: seq<Row>)
    requires |minted| <= |missing|
    ensures |records| == |minted|
    ensures forall j :: 0 <= j < |minted| ==> records[j] == ManifestRecord(minted[j], missing[j])
  {
    seq(|minted|, j requires 0 <= j < |minted| => ManifestRecord(minted[j], missing[j]))
  }

  /** `df["manifest_id"] = df["manifest_name"].map(ids)`. */
  function MapManifestIds(t: Table, ids: map<Value, Value>): (r: Table)
    requires forall i :: 0 <= i < |t.rows| ==> Get(t.rows[i], "manifest_name") in ids
    ensures r.columns == t.columns && |r.rows| == |t.rows|
    ensures forall i :: 0 <= i < |t.rows| ==>
      r.rows[i] == t.rows[i]["manifest_id" := ids[Get(t.rows[i], "manifest_name")]]
  {
    Table(t.columns, seq(|t.rows|, i requires 0 <= i < |t.rows| =>
                                     t.rows[i]["manifest_id" := ids[Get(t.rows[i], "manifest_name")]]))
  }

  /** The frame with a `manifest_id` column, all None when it was absent. */
  function WithIdColumn(t: Table): (r: Table)
    requires WellFormed(t)
    ensures WellFormed(r) && |r.rows| == |t.rows|
    ensures forall i :: 0 <= i < |t.rows| ==> Get(r.rows[i], "manifest_name") == Get(t.rows[i], "manifest_name")
  {
    if "manifest_id" in t.columns then t else AssignColumn(t, "manifest_id", Null)
  }

  predicate NoManifestNames(t: Table)
  {
    "manifest_name" !in t.columns || AllNull(t, "manifest_name")
  }

  /**
   * The outcome of `generate_manifest` on frame `t0`, manifest list `set0`
   * and Manifest pool `pool0`: nothing changes when there are no names;
   * otherwise one manifest per name lacking an ID, minted in key order from
   * the pool, and, unless minting raised, every row's `manifest_id` set to
   * its name's ID.
   */
  predicate ManifestGenerated(t0: Table, t1: Table, set0: seq<Row>, set1: seq<Row>,
                              pool0: seq<string>, pool1: seq<string>, err: Option<Error>,
                              threshold: nat, refill: Refill)
    requires WellFormed(t0)
  {
    if NoManifestNames(t0) then t1 == t0 && set1 == set0 && pool1 == pool0 && err == None
    else ManifestsMinted(t0, t1, set0, set1, pool0, pool1, err, threshold, refill)
  }

  /** The outcome of `generate_manifest` past its early return. */
  predicate ManifestsMinted(t0: Table, t1: Table, set0: seq<Row>, set1: seq<Row>,
                            pool0: seq<string>, pool1: seq<string>, err: Option<Error>,
                            threshold: nat, refill: Refill)
    requires WellFormed(t0)
  {
      var pairs := Dedup(NamePairs(t0));
      var names := KeyOrder(pairs);
      var missing := MissingIds(names, LastIds(pairs));
      var taken := TakeIds(ManifestType, pool0, threshold, refill, |missing|);
      ResolvedCoversRows(t0, missing, taken.ids);
      set1 == set0 + ManifestRecords(missing, taken.ids)
      && pool1 == taken.pool && err == taken.error
      && (err.Some? ==> t1 == WithIdColumn(t0))
      && (err.None? ==> t1 == MapManifestIds(WithIdColumn(t0), Resolve(LastIds(pairs), missing, taken.ids)))
  }

  /** Every row's name keeps an entry once the minted IDs are resolved. */
  lemma ResolvedCoversRows(t: Table, missing: seq<Value>, minted: seq<string>)
    requires WellFormed(t) && |minted| <= |missing|
    ensures var rows := WithIdColumn(t).rows;
      forall i :: 0 <= i < |rows| ==>
        Get(rows[i], "manifest_name") in Resolve(LastIds(Dedup(NamePairs(t))), missing, minted)
  {
    RowNamesInIds(t);
  }

  lemma RowNamesInIds(t: Table)
    ensures forall i :: 0 <= i < |t.rows| ==> Get(t.rows[i], "manifest_name") in LastIds(Dedup(NamePairs(t)))
  {
    var pairs := NamePairs(t);
    forall i | 0 <= i < |t.rows|
      ensures Get(t.rows[i], "manifest_name") in LastIds(Dedup(pairs))
    {
      assert pairs[i] in Dedup(pairs);
    }
  }

  /** Screening one more name adds it to the missing ones exactly when its ID is null. */
  lemma MissingIdsStep(names: seq<Value>, ids: map<Value, Value>, k: nat)
    requires k < |names| && forall n :: n in names ==> n in ids
    ensures MissingIds(names[..k + 1], ids)
            == MissingIds(names[..k], ids) + if HasManifestId(ids[names[k]]) then [] else [names[k]]
  {
    assert names[..k + 1][..k] == names[..k];
  }

  /**
   * The next name of the minting loop, after `k` names that needed
   * `|minted|` IDs: it still holds its original ID, and it is the next
   * missing name exactly when that ID is null.
   */
  lemma NextName(names: seq<Value>, ids0: map<Value, Value>, k: nat, minted: seq<string>)
    requires NoDuplicates(names) && k < |names| && forall n :: n in names ==> n in ids0
    requires var missing := MissingIds(names, ids0);
      |minted| <= |missing| && MissingIds(names[..k], ids0) == missing[..|minted|]
    ensures var missing := MissingIds(names, ids0);
      names[k] in Resolve(ids0, missing, minted) && Resolve(ids0, missing, minted)[names[k]] == ids0[names[k]]
      && (HasManifestId(ids0[names[k]]) ==> MissingIds(names[..k + 1], ids0) == missing[..|minted|])
      && (!HasManifestId(ids0[names[k]]) ==>
            |minted| < |missing| && missing[|minted|] == names[k]
            && MissingIds(names[..k + 1], ids0) == missing[..|minted| + 1])
  {
    var missing := MissingIds(names, ids0);
    var name := names[k];
    assert name !in missing[..|minted|] by {
      assert name !in names[..k];
    }
    ResolveAt(ids0, missing, minted, name);
    MissingIdsStep(names, ids0, k);
    MissingIdsPrefix(names, ids0, k + 1);
    if !HasManifestId(ids0[name]) {
      assert missing[..|minted| + 1] == missing[..|minted|] + [name];
    }
  }

  /** Recording one more minted ID. */
  lemma ResolveNext(ids: map<Value, Value>, missing: seq<Value>, minted: seq<string>, id: string)
    requires |minted| < |missing|
    ensures Resolve(ids, missing, minted + [id]) == Resolve(ids, missing, minted)[missing[|minted|] := Str(id)]
  {
    assert (minted + [id])[..|minted|] == minted;
  }

  /** The records after one more minted ID: one more manifest at the end. */
  lemma ManifestRecordsStep(missing: seq<Value>, minted: seq<string>, id: string)
    requires |minted| < |missing|
    ensures ManifestRecords(missing, minted + [id])
            == ManifestRecords(missing, minted) + [ManifestRecord(id, missing[|minted|])]
  {
  }

  /** Screening a prefix of the names finds a prefix of the missing ones. */
  lemma {:induction false} MissingIdsPrefix(names: seq<Value>, ids: map<Value, Value>, k: nat)
    requires k <= |names| && forall n :: n in names ==> n in ids
    ensures MissingIds(names[..k], ids) <= MissingIds(names, ids)
    decreases |names|
  {
    if k < |names| {
      var init := names[..|names| - 1];
      assert init[..k] == names[..k];
      MissingIdsPrefix(init, ids, k);
    } else {
      assert names[..k] == names;
    }
  }

  /** The loop filling the dictionary from the distinct (name, ID) pairs. */
  method NameIdMapping(pairs: seq<(Value, Value)>) returns (ids: map<Value, Value>, names: seq<Value>)
    ensures ids == LastIds(pairs) && names == KeyOrder(pairs)
  {
    ids := map[];
    names := [];
    var i := 0;
    while i < |pairs|
      invariant i <= |pairs|
      invariant ids == LastIds(pairs[..i]) && names == KeyOrder(pairs[..i])
    {
      assert pairs[..i + 1][..i] == pairs[..i];
      if pairs[i].0 !in names {
        names := names + [pairs[i].0];
      }
      ids := ids[pairs[i].0 := pairs[i].1];
      i := i + 1;
    }
    assert pairs[..|pairs|] == pairs;
  }

  /**
   * One turn of the minting loop for the next missing name: an ID from the
   * Manifest pool and, when there is one, its manifest appended.
   */
  method MintOne(db: Database, pool: IDPool, mint: Minter, name: Value,
                 ghost missing: seq<Value>, ghost minted: seq<string>, ghost pool0: seq<string>, ghost set0: seq<Row>)
    returns (id: Result<string>)
    requires |minted| < |missing| && missing[|minted|] == name
    requires TakeIds(ManifestType, pool0, pool.refillThreshold, DefaultRefill(mint, ManifestType, pool.poolSize), |minted|)
             == Taken(minted, None, pool.Pool(ManifestType))
    requires db.manifestSet == set0 + ManifestRecords(missing, minted)
    modifies db`manifestSet, pool
    ensures var taken := TakeIds(ManifestType, pool0, pool.refillThreshold,
                                 DefaultRefill(mint, ManifestType, pool.poolSize), |minted| + 1);
      match id
      case Ok(v) => taken == Taken(minted + [v], None, pool.Pool(ManifestType))
                    && db.manifestSet == set0 + ManifestRecords(missing, minted + [v])
      case Err(e) => taken == Taken(minted, Some(e), pool.Pool(ManifestType))
                     && db.manifestSet == old(db.manifestSet)
    ensures forall u :: u != ManifestType ==> pool.Pool(u) == old(pool.Pool(u))
  {
    TakeIdsNext(ManifestType, pool0, pool.refillThreshold, DefaultRefill(mint, ManifestType, pool.poolSize),
                |minted|, minted, pool.Pool(ManifestType));
    var refilled;
    id, refilled := pool.GetId(ManifestType, mint);
    if id.Ok? {
      var record := ManifestRecord(id.value, name);
      ManifestRecordsStep(missing, minted, id.value);
      assert set0 + ManifestRecords(missing, minted + [id.value]) == db.manifestSet + [record];
      db.manifestSet := db.manifestSet + [record];
    }
  }

  /**
   * The state of the minting loop after the first `k` names: the IDs minted
   * so far are those the pool handed out for the missing names among them,
   * one manifest was appended per ID, and the dictionary records each.
   */
  ghost predicate MintedUpTo(names: seq<Value>, ids0: map<Value, Value>, k: nat, minted: seq<string>,
                             ids: map<Value, Value>, pool0: seq<string>, threshold: nat, refill: Refill,
                             pool1: seq<string>, set0: seq<Row>, set1: seq<Row>)
    requires forall n :: n in names ==> n in ids0
  {
    var missing := MissingIds(names, ids0);
    k <= |names| && |minted| <= |missing| && MissingIds(names[..k], ids0) == missing[..|minted|]
    && TakeIds(ManifestType, pool0, threshold, refill, |minted|) == Taken(minted, None, pool1)
    && set1 == set0 + ManifestRecords(missing, minted)
    && ids == Resolve(ids0, missing, minted)
  }

  /** One turn of the minting loop: name `k` is skipped when it has an ID, and gets one minted otherwise. */
  method MintTurn(db: Database, pool: IDPool, mint: Minter, names: seq<Value>, ids0: map<Value, Value>, k: nat,
                  minted: seq<string>, ids: map<Value, Value>, ghost pool0: seq<string>, ghost set0: seq<Row>)
    returns (minted': seq<string>, ids': map<Value, Value>, err: Option<Error>)
    requires NoDuplicates(names) && k < |names| && forall n :: n in names ==> n in ids0
    requires MintedUpTo(names, ids0, k, minted, ids, pool0, pool.refillThreshold,
                        DefaultRefill(mint, ManifestType, pool.poolSize), pool.Pool(ManifestType), set0, db.manifestSet)
    modifies db`manifestSet, pool
    ensures err.None? ==>
      MintedUpTo(names, ids0, k + 1, minted', ids', pool0, pool.refillThreshold,
                 DefaultRefill(mint, ManifestType, pool.poolSize), pool.Pool(ManifestType), set0, db.manifestSet)
    ensures err.Some? ==>
      var missing := MissingIds(names, ids0);
      TakeIds(ManifestType, pool0, pool.refillThreshold, DefaultRefill(mint, ManifestType, pool.poolSize), |missing|)
        == Taken(minted, err, pool.Pool(ManifestType))
      && db.manifestSet == set0 + ManifestRecords(missing, minted)
    ensures forall u :: u != ManifestType ==> pool.Pool(u) == old(pool.Pool(u))
  {
    ghost var missing := MissingIds(names, ids0);
    var name := names[k];
    NextName(names, ids0, k, minted);
    if HasManifestId(ids[name]) {
      return minted, ids, None;
    }
    var id := MintOne(db, pool, mint, name, missing, minted, pool0, set0);
    if id.Err? {
      TakeIdsStops(ManifestType, pool0, pool.refillThreshold, DefaultRefill(mint, ManifestType, pool.poolSize),
                   |minted| + 1, |missing|);
      return minted, ids, Some(id.error);
    }
    ResolveNext(ids0, missing, minted, id.value);
    return minted + [id.value], ids[name := Str(id.value)], None;
  }

  /**
   * The minting loop of `generate_manifest`: for each name in key order
   * whose ID is null, one ID from the Manifest pool, one manifest appended
   * and the ID recorded under the name; it stops at the first minting error.
   */
  method MintManifests(db: Database, pool: IDPool, mint: Minter, names: seq<Value>, ids0: map<Value, Value>)
    returns (ids: map<Value, Value>, err: Option<Error>)
    requires NoDuplicates(names) && forall n :: n in names ==> n in ids0
    modifies db`manifestSet, pool
    ensures var missing := MissingIds(names, ids0);
      var taken := TakeIds(ManifestType, old(pool.Pool(ManifestType)), pool.refillThreshold,
                           DefaultRefill(mint, ManifestType, pool.poolSize), |missing|);
      db.manifestSet == old(db.manifestSet) + ManifestRecords(missing, taken.ids)
      && pool.Pool(ManifestType) == taken.pool && err == taken.error
      && (err.None? ==> ids == Resolve(ids0, missing, taken.ids))
    ensures forall u :: u != ManifestType ==> pool.Pool(u) == old(pool.Pool(u))
  {
    ghost var refill := DefaultRefill(mint, ManifestType, pool.poolSize);
    ghost var pool0 := pool.Pool(ManifestType);
    ghost var set0 := db.manifestSet;
    ids := ids0;
    var minted: seq<string> := [];
    var k := 0;
    while k < |names|
      invariant MintedUpTo(names, ids0, k, minted, ids, pool0, pool.refillThreshold, refill,
                           pool.Pool(ManifestType), set0, db.manifestSet)
      invariant forall u :: u != ManifestType ==> pool.Pool(u) == old(pool.Pool(u))
    {
      minted, ids, err := MintTurn(db, pool, mint, names, ids0, k, minted, ids, pool0, set0);
      if err.Some? {
        return;
      }
      k := k + 1;
    }
    assert names[..k] == names;
    return ids, None;
  }

  /**
   * `generate_manifest`: mints one Manifest per distinct `manifest_name`
   * whose ID is null and writes each name's ID into every row with that name.
   */
  method GenerateManifest(df: DataFrame, db: Database, pool: IDPool, mint: Minter) returns (err: Option<Error>)
    requires WellFormed(df.table)
    modifies df`table, db`manifestSet, pool
    ensures ManifestGenerated(old(df.table), df.table, old(db.manifestSet), db.manifestSet,
                              old(pool.Pool(ManifestType)), pool.Pool(ManifestType), err,
                              pool.refillThreshold, DefaultRefill(mint, ManifestType, pool.poolSize))
    ensures forall u :: u != ManifestType ==> pool.Pool(u) == old(pool.Pool(u))
  {
    if "manifest_name" !in df.table.columns || AllNull(df.table, "manifest_name") {
      return None;
    }
    err := MintAndMapManifests(df, db, pool, mint);
  }

  /** `generate_manifest` past its early return. */
  method MintAndMapManifests(df: DataFrame, db: Database, pool: IDPool, mint: Minter) returns (err: Option<Error>)
    requires WellFormed(df.table)
    modifies df`table, db`manifestSet, pool
    ensures ManifestsMinted(old(df.table), df.table, old(db.manifestSet), db.manifestSet,
                            old(pool.Pool(ManifestType)), pool.Pool(ManifestType), err,
                            pool.refillThreshold, DefaultRefill(mint, ManifestType, pool.poolSize))
    ensures forall u :: u != ManifestType ==> pool.Pool(u) == old(pool.Pool(u))
  {
    var t0 := df.table;
    if "manifest_id" !in t0.columns {
      df.table := AssignColumn(t0, "manifest_id", Null);
    }
    var withId := df.table;
    assert withId == WithIdColumn(t0);
    var ids0, names := NameIdMapping(Dedup(NamePairs(t0)));
    var ids;
    ids, err := MintManifests(db, pool, mint, names, ids0);
    if err.Some? {
      return;
    }
    RowNamesInIds(t0);
    df.table := MapManifestIds(withId, ids);
  }

  /**
   * `check_manifest`: runs `generate_manifest` only when the frame has no
   * `manifest_id` column or one of its IDs is null; otherwise nothing changes.
   */
  method CheckManifest(df: DataFrame, db: Database, pool: IDPool, mint: Minter) returns (err: Option<Error>)
    requires WellFormed(df.table)
    modifies df`table, db`manifestSet, pool
    ensures var t0 := old(df.table);
      if "manifest_id" !in t0.columns || AnyNull(t0, "manifest_id") then
        ManifestGenerated(t0, df.table, old(db.manifestSet), db.manifestSet,
                          old(pool.Pool(ManifestType)), pool.Pool(ManifestType), err,
                          pool.refillThreshold, DefaultRefill(mint, ManifestType, pool.poolSize))
      else
        df.table == t0 && db.manifestSet == old(db.manifestSet) && err == None
        && pool.Pool(ManifestType) == old(pool.Pool(ManifestType))
    ensures forall u :: u != ManifestType ==> pool.Pool(u) == old(pool.Pool(u))
  {
    if "manifest_id" !in df.table.columns || AnyNull(df.table, "manifest_id") {
      err := GenerateManifest(df, db, pool, mint);
    } else {
      err := None;
    }
  }

  /** Once every missing name has its ID, no name with an ID or a missing one resolves to null. */
  lemma ResolvedNotNull(ids: map<Value, Value>, missing: seq<Value>, minted: seq<string>, n: Value)
    requires |minted| == |missing| && NoDuplicates(missing) && n in ids
    requires n !in missing ==> HasManifestId(ids[n])
    ensures n in Resolve(ids, missing, minted) && HasManifestId(Resolve(ids, missing, minted)[n])
  {
    ResolveAt(ids, missing, minted, n);
    assert missing[..|minted|] == missing;
    if n in missing {
      var j :| 0 <= j < |missing| && missing[j] == n;
    }
  }

  /**
   * When minting succeeds, every row of a frame with manifest names ends up
   * with a non-null `manifest_id`: a name either had an ID or got a minted one.
   */
  lemma GeneratedIdsNotNull(t0: Table, t1: Table, set0: seq<Row>, set1: seq<Row>,
                            pool0: seq<string>, pool1: seq<string>, threshold: nat, refill: Refill)
    requires WellFormed(t0) && !NoManifestNames(t0)
    requires ManifestGenerated(t0, t1, set0, set1, pool0, pool1, None, threshold, refill)
    ensures |t1.rows| == |t0.rows|
    ensures forall i :: 0 <= i < |t1.rows| ==> !IsNull(Get(t1.rows[i], "manifest_id"))
  {
    RowNamesInIds(t0);
    var pairs := Dedup(NamePairs(t0));
    var ids0 := LastIds(pairs);
    var names := KeyOrder(pairs);
    var missing := MissingIds(names, ids0);
    var taken := TakeIds(ManifestType, pool0, threshold, refill, |missing|);
    var ids := Resolve(ids0, missing, taken.ids);
    var t := WithIdColumn(t0);
    assert t1 == MapManifestIds(t, ids);
    forall i | 0 <= i < |t1.rows|
      ensures !IsNull(Get(t1.rows[i], "manifest_id"))
    {
      var n := Get(t.rows[i], "manifest_name");
      ResolvedNotNull(ids0, missing, taken.ids, n);
      assert t1.rows[i] == t.rows[i]["manifest_id" := ids[n]];
    }
  }

  // The source tests `is not None` where the frame holds NaN for an empty
  // cell; the functions below model that test as written.

  /** The names lacking an ID as the source selects them: those mapped to None exactly. */
  function MissingIdsAsWritten(names: seq<Value>, ids: map<Value, Value>): (missing: seq<Value>)
    requires forall n :: n in names ==> n in ids
    ensures forall n :: n in missing <==> n in names && ids[n] == Null
  {
    if names == [] then []
    else
      var init := MissingIdsAsWritten(names[..|names| - 1], ids);
      var last := names[|names| - 1];
      assert forall n :: n in names <==> n in names[..|names| - 1] || n == last;
      if ids[last] != Null then init else init + [last]
  }

  /**
   * A frame read from a file with an empty `manifest_id` cell (NaN) next to
   * a manifest name: `check_manifest` sees the null and calls
   * `generate_manifest`, whose `is not None` test then selects no name, so
   * nothing is minted and the row keeps its NaN ID; the `pd.isnull` test
   * selects the name.
   */
  lemma NaNManifestIdSkipped()
    ensures var t := Table(["manifest_name", "manifest_id"],
                           [map["manifest_name" := Str("run1"), "manifest_id" := NaN]]);
      var pairs := Dedup(NamePairs(t));
      WellFormed(t) && AnyNull(t, "manifest_id") && !NoManifestNames(t)
      && MissingIdsAsWritten(KeyOrder(pairs), LastIds(pairs)) == []
      && MissingIds(KeyOrder(pairs), LastIds(pairs)) == [Str("run1")]
  {
    var t := Table(["manifest_name", "manifest_id"], [map["manifest_name" := Str("run1"), "manifest_id" := NaN]]);
    NaNFramePairs(t);
    var pairs := Dedup(NamePairs(t));
    OnePairIds(pairs);
    NaNIdMissing(KeyOrder(pairs), LastIds(pairs));
  }

  /** The frame of `NaNManifestIdSkipped` has one name, with a NaN ID. */
  lemma NaNFramePairs(t: Table)
    requires t == Table(["manifest_name", "manifest_id"], [map["manifest_name" := Str("run1"), "manifest_id" := NaN]])
    ensures WellFormed(t) && AnyNull(t, "manifest_id") && !NoManifestNames(t)
    ensures Dedup(NamePairs(t)) == [(Str("run1"), NaN)]
  {
    var row := t.rows[0];
    assert Get(row, "manifest_name") == Str("run1") && Get(row, "manifest_id") == NaN;
    assert NamePairs(t) == [(Str("run1"), NaN)];
    assert Dedup([(Str("run1"), NaN)]) == [(Str("run1"), NaN)];
    assert ColumnSet(t.columns) == row.Keys;
  }

  /** The dictionary of the one pair of `NaNManifestIdSkipped`. */
  lemma OnePairIds(pairs: seq<(Value, Value)>)
    requires pairs == [(Str("run1"), NaN)]
    ensures LastIds(pairs) == map[Str("run1") := NaN] && KeyOrder(pairs) == [Str("run1")]
  {
    assert pairs[..0] == [];
  }

  /** One name with a NaN ID, through both tests. */
  lemma NaNIdMissing(names: seq<Value>, ids: map<Value, Value>)
    requires names == [Str("run1")] && ids == map[Str("run1") := NaN]
    ensures MissingIdsAsWritten(names, ids) == []
    ensures MissingIds(names, ids) == [Str("run1")]
  {
    assert names[..0] == [];
  }

  // ---------------------------------------------------------------------
  // update_outputs
  // ---------------------------------------------------------------------

  /** A Python list of ID strings. */
  function StringList(ids: seq<string>): (v: Value)
    ensures v.List? && |v.items| == |ids|
    ensures forall i :: 0 <= i < |ids| ==> v.items[i] == Str(ids[i])
  {
    List(seq(|ids|, i requires 0 <= i < |ids| => Str(ids[i])))
  }

  /**
   * `update_outputs`: unless rerunning, the mass-spectrometry record's
   * `has_output` becomes the raw data object's ID (a missing record raises
   * AttributeError and nothing changes); then the analysis record's
   * `has_input` becomes the parameter data as given (one ID, or a list of
   * them as the LC/MS and rerun callers pass) and its
   * `has_output` the processed data IDs. The two writes are applied in that
   * order, so they compose when both names denote one record.
   */
  method UpdateOutputs(analysis: SchemaObject, rawDataObjId: string, parameterData: Value,
                       processedDataIds: seq<string>, massSpec: SchemaObject?, rerun: bool)
    returns (err: Option<Error>)
    modifies analysis, massSpec
    ensures !rerun && massSpec == null ==>
      err == Some(Error(AttributeError, ["has_output"])) && analysis.slots == old(analysis.slots)
    ensures rerun || massSpec != null ==> err == None
    ensures !rerun && massSpec != null && massSpec != analysis ==>
      massSpec.slots == old(massSpec.slots)["has_output" := List([Str(rawDataObjId)])]
    ensures err == None ==>
      var before := if !rerun && massSpec == analysis then old(analysis.slots)["has_output" := List([Str(rawDataObjId)])]
                    else old(analysis.slots);
      analysis.slots == before["has_input" := parameterData]["has_output" := StringList(processedDataIds)]
    ensures rerun && massSpec != null && massSpec != analysis ==> massSpec.slots == old(massSpec.slots)
  {
    if !rerun {
      if massSpec == null {
        return Some(Error(AttributeError, ["has_output"]));
      }
      massSpec.slots := massSpec.slots["has_output" := List([Str(rawDataObjId)])];
    }
    analysis.slots := analysis.slots["has_input" := parameterData];
    analysis.slots := analysis.slots["has_output" := StringList(processedDataIds)];
    return None;
  }

  /** After an update that does not raise, the analysis record holds exactly the given input and outputs. */
  lemma UpdatedAnalysisLinks(before: Row, parameterData: Value, processedDataIds: seq<string>)
    ensures var after := before["has_input" := parameterData]["has_output" := StringList(processedDataIds)];
      after["has_input"] == parameterData
      && after["has_output"].List? && |after["has_output"].items| == |processedDataIds|
      && (forall i :: 0 <= i < |processedDataIds| ==> after["has_output"].items[i] == Str(processedDataIds[i]))
      && (forall k :: k in before && k != "has_input" && k != "has_output" ==> k in after && after[k] == before[k])
  {
  }
}
