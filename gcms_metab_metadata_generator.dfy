/**
 * The GC/MS metabolomics generator: best-hit selection of metabolite
 * identifications, the FAMES calibration records, and the one calibration
 * per calibration file that `generate_calibration_id` mints and writes back
 * into the metadata frame.
 */
module GcmsMetabolomics {
  import opened Common
  import opened Frames
  import opened IdPool
  import opened MetadataGenerator

  // ---------------------------------------------------------------------
  // generate_metab_identifications
  // ---------------------------------------------------------------------

  /**
   * One row of a processed-data file: a candidate hit for a peak. A missing
   * similarity score, ChEBI ID or KEGG ID is None; scores are compared only,
   * so integers stand in for the floats.
   */
  datatype Hit = Hit(peakIndex: int, score: Option<int>, chebi: Option<int>, kegg: Option<string>)

  /** A hit that survives `dropna(subset=["Similarity Score"])`. */
  predicate Scored(h: Hit)
  {
    h.score.Some?
  }

  /** Peak indices in strictly ascending order. */
  predicate Ascending(ps: seq<int>)
  {
    forall i, j :: 0 <= i < j < |ps| ==> ps[i] < ps[j]
  }

  /** Adds a peak index to an ascending list that may already hold it. */
  function InsertPeak(p: int, ps: seq<int>): (r: seq<int>)
    requires Ascending(ps)
    ensures Ascending(r)
    ensures forall q :: q in r <==> q == p || q in ps
  {
    if ps == [] then [p]
    else if ps[|ps| - 1] < p then ps + [p]
    else if ps[|ps| - 1] == p then ps
    else
      var init := ps[..|ps| - 1];
      assert forall q :: q in ps <==> q in init || q == ps[|ps| - 1];
      var r := InsertPeak(p, init);
      assert forall i :: 0 <= i < |r| ==> r[i] < ps[|ps| - 1] by {
        forall i | 0 <= i < |r| ensures r[i] < ps[|ps| - 1] {
          assert r[i] in r;
          if r[i] != p {
            var j :| 0 <= j < |init| && init[j] == r[i];
          }
        }
      }
      r + [ps[|ps| - 1]]
  }

  /** The groups of `groupby("Peak Index")` over the scored hits, in ascending order. */
  function Peaks(hits: seq<Hit>): (ps: seq<int>)
    ensures Ascending(ps)
    ensures forall p :: p in ps <==> exists i :: 0 <= i < |hits| && Scored(hits[i]) && hits[i].peakIndex == p
  {
    if hits == [] then []
    else
      var init := hits[..|hits| - 1];
      var h := hits[|hits| - 1];
      var ps := Peaks(init);
      assert forall i :: 0 <= i < |hits| - 1 ==> init[i] == hits[i];
      if Scored(h) then InsertPeak(h.peakIndex, ps) else ps
  }

  /**
   * `idxmax` of the similarity score within one peak: the first scored hit
   * of that peak whose score is the greatest; None when the peak has none.
   */
  function BestOf(hits: seq<Hit>, p: int): (b: Option<nat>)
    ensures b.Some? <==> exists i :: 0 <= i < |hits| && Scored(hits[i]) && hits[i].peakIndex == p
    ensures b.Some? ==> b.value < |hits| && Scored(hits[b.value]) && hits[b.value].peakIndex == p
    ensures b.Some? ==> forall i :: 0 <= i < |hits| && Scored(hits[i]) && hits[i].peakIndex == p ==>
                          hits[i].score.value <= hits[b.value].score.value
    ensures b.Some? ==> forall i :: 0 <= i < b.value && Scored(hits[i]) && hits[i].peakIndex == p ==>
                          hits[i].score.value < hits[b.value].score.value
  {
    if hits == [] then None
    else
      var init := hits[..|hits| - 1];
      var h := hits[|hits| - 1];
      var b := BestOf(init, p);
      assert forall i :: 0 <= i < |hits| - 1 ==> init[i] == hits[i];
      if Scored(h) && h.peakIndex == p && (b.None? || hits[b.value].score.value < h.score.value)
      then Some(|hits| - 1)
      else b
  }

  /** The best hit of every peak, in ascending peak order. */
  function BestHits(hits: seq<Hit>): (best: seq<Hit>)
    ensures |best| == |Peaks(hits)|
    ensures forall k :: 0 <= k < |best| ==>
      BestOf(hits, Peaks(hits)[k]).Some? && best[k] == hits[BestOf(hits, Peaks(hits)[k]).value]
    ensures forall k :: 0 <= k < |best| ==> Scored(best[k])
  {
    var ps := Peaks(hits);
    assert forall k :: 0 <= k < |ps| ==> BestOf(hits, ps[k]).Some? by {
      forall k | 0 <= k < |ps| ensures BestOf(hits, ps[k]).Some? {
        assert ps[k] in ps;
      }
    }
    seq(|ps|, k requires 0 <= k < |ps| && BestOf(hits, ps[k]).Some? => hits[BestOf(hits, ps[k]).value])
  }

  /** A metabolite identification: the ChEBI CURIE, the KEGG CURIEs and the score. */
  datatype Identification = Identification(metaboliteIdentified: string, alternativeIdentifiers: seq<string>,
                                           highestSimilarityScore: int)

  const ChebiPrefix: string := "chebi:"
  const KeggPrefix: string := "kegg:"

  /** "kegg:" before each stripped piece. */
  function KeggPieces(pieces: seq<string>): (r: seq<string>)
    ensures |r| == |pieces|
    ensures forall i :: 0 <= i < |pieces| ==> r[i] == KeggPrefix + Strip(pieces[i])
  {
    seq(|pieces|, i requires 0 <= i < |pieces| => KeggPrefix + Strip(pieces[i]))
  }

  /**
   * The KEGG alternative identifiers of a hit: each `|`-separated piece,
   * stripped, behind "kegg:"; a value without `|` is used unstripped. The
   * list has no repeats (`list(set(...))`).
   */
  function KeggIds(kegg: Option<string>): (ids: seq<string>)
    ensures NoDuplicates(ids)
    ensures kegg.None? ==> ids == []
    ensures kegg.Some? && '|' !in kegg.value ==> ids == [KeggPrefix + kegg.value]
    ensures kegg.Some? && '|' in kegg.value ==>
      forall x :: x in ids <==> x in KeggPieces(SplitOn(kegg.value, '|'))
  {
    if kegg.None? then []
    else if '|' !in kegg.value then [KeggPrefix + kegg.value]
    else Dedup(KeggPieces(SplitOn(kegg.value, '|')))
  }

  /** Every KEGG identifier carries the "kegg:" prefix. */
  lemma KeggIdsPrefixed(kegg: Option<string>, x: string)
    requires x in KeggIds(kegg)
    ensures StartsWith(x, KeggPrefix)
  {
    if '|' in kegg.value {
      var pieces := KeggPieces(SplitOn(kegg.value, '|'));
      var i :| 0 <= i < |pieces| && pieces[i] == x;
    }
  }

  /** The identification a best hit yields: none without a ChEBI ID. */
  function IdentificationOf(h: Hit): (r: Option<Identification>)
    requires Scored(h)
    ensures r.Some? <==> h.chebi.Some?
    ensures r.Some? ==>
      r.value.highestSimilarityScore == h.score.value
      && r.value.alternativeIdentifiers == KeggIds(h.kegg)
      && StartsWith(r.value.metaboliteIdentified, ChebiPrefix)
  {
    if h.chebi.None? then None
    else
      var chebi := ChebiPrefix + IntToString(h.chebi.value);
      assert StartsWith(chebi, ChebiPrefix);
      Some(Identification(chebi, KeggIds(h.kegg), h.score.value))
  }

  /** The ChEBI number can be read back from `metabolite_identified`. */
  lemma ChebiRoundTrip(h: Hit)
    requires Scored(h) && h.chebi.Some?
    ensures ParseInt(IdentificationOf(h).value.metaboliteIdentified[|ChebiPrefix|..]) == Some(h.chebi.value)
  {
    var m := IdentificationOf(h).value.metaboliteIdentified;
    assert m[|ChebiPrefix|..] == IntToString(h.chebi.value);
    ParseIntRoundTrip(h.chebi.value);
  }

  /** The identifications of a list of best hits, skipping those without a ChEBI ID. */
  function Identifications(best: seq<Hit>): (ids: seq<Identification>)
    requires forall k :: 0 <= k < |best| ==> Scored(best[k])
    ensures |ids| <= |best|
  {
    if best == [] then []
    else
      var h := best[|best| - 1];
      Identifications(best[..|best| - 1]) + (if h.chebi.Some? then [IdentificationOf(h).value] else [])
  }

  /** One best hit more adds its identification, if it has one, at the end. */
  lemma IdentificationsSnoc(best: seq<Hit>, k: nat)
    requires k < |best| && forall j :: 0 <= j < |best| ==> Scored(best[j])
    ensures Identifications(best[..k + 1])
      == Identifications(best[..k]) + (if best[k].chebi.Some? then [IdentificationOf(best[k]).value] else [])
  {
    assert best[..k + 1][..k] == best[..k];
  }

  /** The identifications are exactly those of the best hits that have a ChEBI ID. */
  lemma IdentificationsMembers(best: seq<Hit>, x: Identification)
    requires forall k :: 0 <= k < |best| ==> Scored(best[k])
    ensures x in Identifications(best) <==>
      exists k :: 0 <= k < |best| && best[k].chebi.Some? && Some(x) == IdentificationOf(best[k])
  {
    if x in Identifications(best) {
      IdentificationsSound(best, x);
    }
    if exists k :: 0 <= k < |best| && best[k].chebi.Some? && Some(x) == IdentificationOf(best[k]) {
      var k :| 0 <= k < |best| && best[k].chebi.Some? && Some(x) == IdentificationOf(best[k]);
      IdentificationsComplete(best, k);
    }
  }

  /** Every identification comes from a best hit with a ChEBI ID. */
  lemma {:induction false} IdentificationsSound(best: seq<Hit>, x: Identification)
    requires forall k :: 0 <= k < |best| ==> Scored(best[k])
    requires x in Identifications(best)
    ensures exists k :: 0 <= k < |best| && best[k].chebi.Some? && Some(x) == IdentificationOf(best[k])
  {
    var n := |best| - 1;
    var init := best[..n];
    assert forall k :: 0 <= k < n ==> init[k] == best[k];
    if x in Identifications(init) {
      IdentificationsSound(init, x);
      var k :| 0 <= k < n && init[k].chebi.Some? && Some(x) == IdentificationOf(init[k]);
      assert best[k] == init[k];
    } else {
      assert best[n].chebi.Some? && Some(x) == IdentificationOf(best[n]);
    }
  }

  /** Every best hit with a ChEBI ID gives its identification. */
  lemma {:induction false} IdentificationsComplete(best: seq<Hit>, k: nat)
    requires forall j :: 0 <= j < |best| ==> Scored(best[j])
    requires k < |best| && best[k].chebi.Some?
    ensures IdentificationOf(best[k]).value in Identifications(best)
  {
    var n := |best| - 1;
    var init := best[..n];
    if k < n {
      assert init[k] == best[k];
      assert forall j :: 0 <= j < n ==> init[j] == best[j];
      IdentificationsComplete(init, k);
    }
  }

  /**
   * `generate_metab_identifications`: the best hit of every peak, then one
   * pass over them in peak order.
   */
  method GenerateMetabIdentifications(hits: seq<Hit>) returns (ids: seq<Identification>)
    ensures ids == Identifications(BestHits(hits))
  {
    ids := IdentifyBestHits(BestHits(hits));
  }

  /** The loop of `generate_metab_identifications`: an identification for each best hit with a ChEBI ID. */
  method IdentifyBestHits(best: seq<Hit>) returns (ids: seq<Identification>)
    requires forall k :: 0 <= k < |best| ==> Scored(best[k])
    ensures ids == Identifications(best)
  {
    ids := [];
    var k := 0;
    while k < |best|
      invariant 0 <= k <= |best|
      invariant ids == Identifications(best[..k])
    {
      var hit := best[k];
      IdentificationsSnoc(best, k);
      if hit.chebi.Some? {
        var chebiId := ChebiPrefix + IntToString(hit.chebi.value);
        ids := ids + [Identification(chebiId, KeggIds(hit.kegg), hit.score.value)];
      }
      k := k + 1;
    }
    assert best[..k] == best;
  }

  /**
   * Every identification comes from the best hit of a peak, so there is at
   * most one per peak and its score is the greatest of that peak.
   */
  lemma IdentificationsAreBestHits(hits: seq<Hit>, x: Identification)
    requires x in Identifications(BestHits(hits))
    ensures exists k :: (0 <= k < |Peaks(hits)| && BestOf(hits, Peaks(hits)[k]).Some?
      && Some(x) == IdentificationOf(hits[BestOf(hits, Peaks(hits)[k]).value]))
    ensures |Identifications(BestHits(hits))| <= |Peaks(hits)|
  {
    var best := BestHits(hits);
    IdentificationsMembers(best, x);
    var k :| 0 <= k < |best| && best[k].chebi.Some? && Some(x) == IdentificationOf(best[k]);
    assert best[k] == hits[BestOf(hits, Peaks(hits)[k]).value];
  }

  /** A peak whose best hit lacks a ChEBI ID yields nothing, even when a weaker hit has one. */
  lemma HiddenChebiNotIdentified()
    ensures var hits := [Hit(7, Some(90), None, Some("C00031")), Hit(7, Some(80), Some(17234), None)];
      Identifications(BestHits(hits)) == []
  {
    var hits := [Hit(7, Some(90), None, Some("C00031")), Hit(7, Some(80), Some(17234), None)];
    assert Peaks(hits[..1]) == [7];
    assert Peaks(hits) == [7];
    assert BestOf(hits[..1], 7) == Some(0);
    assert BestOf(hits, 7) == Some(0);
    assert BestHits(hits) == [hits[0]];
  }

  // ---------------------------------------------------------------------
  // generate_calibration and the standard check of run
  // ---------------------------------------------------------------------

  /** `run` supports FAMES calibrations only. */
  function CheckCalibrationStandard(standard: string): (err: Option<Error>)
    ensures err.None? <==> standard == "fames"
    ensures err.Some? ==> err.value.kind == ValueError
  {
    if standard != "fames" then Some(Error(ValueError, [standard])) else None
  }

  /** `generate_calibration` builds a record only for an external FAMES calibration. */
  predicate FamesExternal(fames: Value, internal: Value)
  {
    Truthy(fames) && !Truthy(internal)
  }

  /** The CalibrationInformation record of an external FAMES calibration run. */
  function CalibrationRecord(id: string, objectName: string, objectId: string): (r: Row)
    ensures "id" in r && r["id"] == Str(id)
    ensures "calibration_object" in r && r["calibration_object"] == Str(objectId)
    ensures "internal_calibration" in r && r["internal_calibration"] == Bool(false)
    ensures "calibration_target" in r && r["calibration_target"] == Str("retention_index")
    ensures "calibration_standard" in r && r["calibration_standard"] == Str("fames")
  {
    map[
      "id" := Str(id),
      "type" := Str(CalibrationInformationType),
      "name" := Str("GC/MS FAMES calibration (" + objectName + ")"),
      "description" := Str("Full scan GC/MS FAMES calibration run (" + objectName + ")."),
      "internal_calibration" := Bool(false),
      "calibration_target" := Str("retention_index"),
      "calibration_standard" := Str("fames"),
      "calibration_object" := Str(objectId)
    ]
  }

  /**
   * `generate_calibration` on one pool: ValueError without touching the pool
   * unless the calibration is external FAMES; otherwise one ID from the
   * CalibrationInformation pool and the record around it.
   */
  function Calibration(pool: seq<string>, threshold: nat, refill: Refill, fames: Value, internal: Value,
                       objectName: string, objectId: string): (r: (Result<Row>, seq<string>))
    ensures !FamesExternal(fames, internal) ==> r == (Err(Error(ValueError, [])), pool)
    ensures r.0.Ok? ==>
      FamesExternal(fames, internal)
      && exists id :: (TakeId(CalibrationInformationType, pool, threshold, refill).0 == Ok(id)
                      && r.0.value == CalibrationRecord(id, objectName, objectId))
  {
    if !FamesExternal(fames, internal) then (Err(Error(ValueError, [])), pool)
    else
      var taken := TakeId(CalibrationInformationType, pool, threshold, refill);
      match taken.0
      case Ok(id) => (Ok(CalibrationRecord(id, objectName, objectId)), taken.1)
      case Err(e) => (Err(e), taken.1)
  }

  method GenerateCalibration(pool: IDPool, mint: Minter, objectName: string, objectId: string,
                             fames: Value, internal: Value)
    returns (r: Result<Row>)
    modifies pool
    ensures (r, pool.Pool(CalibrationInformationType))
      == Calibration(old(pool.Pool(CalibrationInformationType)), pool.refillThreshold,
                     DefaultRefill(mint, CalibrationInformationType, pool.poolSize), fames, internal,
                     objectName, objectId)
    ensures forall u :: u != CalibrationInformationType ==> pool.Pool(u) == old(pool.Pool(u))
  {
    if !FamesExternal(fames, internal) {
      return Err(Error(ValueError, []));
    }
    var before := pool.Pool(CalibrationInformationType);
    var id, _ := pool.GetId(CalibrationInformationType, mint);
    r := Calibration(before, pool.refillThreshold, DefaultRefill(mint, CalibrationInformationType, pool.poolSize),
                     fames, internal, objectName, objectId).0;
  }

  // ---------------------------------------------------------------------
  // generate_calibration_id
  // ---------------------------------------------------------------------

  /** The generator settings `generate_calibration_id` reads. */
  datatype CalibrationSettings = CalibrationSettings(
    rawDataCategory: string, rawDataObjType: string, rawDataObjDesc: string, rawDataUrl: string,
    calibrationStandard: string)

  /** The first index holding `v`; never one for a null `v`, as pandas' `==` is false on NaN. */
  function FirstIndexOf(col: seq<Value>, v: Value): (i: Option<nat>)
    ensures i.Some? ==> i.value < |col| && col[i.value] == v && forall j :: 0 <= j < i.value ==> col[j] != v
    ensures i.None? <==> IsNull(v) || v !in col
  {
    if IsNull(v) || v !in col then None
    else if col[0] == v then Some(0)
    else
      var r := FirstIndexOf(col[1..], v);
      Some(r.value + 1)
  }

  /**
   * The path and URL of a calibration file: the `calibration_file_url` of
   * the first row with that file when the column exists (IndexError when no
   * row has it, which happens only for a null file), otherwise None; a file
   * that is not a string cannot be made a path (TypeError).
   */
  function CalibrationSource(t: Table, file: Value): (r: Result<(string, Option<string>)>)
    ensures r.Ok? ==> file == Str(r.value.0)
    ensures r.Ok? && "calibration_file_url" !in t.columns ==> r.value.1 == None
    ensures "calibration_file_url" in t.columns && (IsNull(file) || file !in Column(t, "calibration_file")) ==>
      r == Err(Error(IndexError, []))
  {
    var url: Result<Option<string>> :=
      if "calibration_file_url" !in t.columns then Ok(None)
      else
        var i := FirstIndexOf(Column(t, "calibration_file"), file);
        if i.None? then Err(Error(IndexError, []))
        else Ok(UrlArgument(Column(t, "calibration_file_url")[i.value]));
    if url.Err? then Err(url.error)
    else if !file.Str? then Err(Error(TypeError, []))
    else Ok((file.s, url.value))
  }

  /** The state `generate_calibration_id` builds up, one calibration file at a time. */
  datatype CalibrationRun = CalibrationRun(table: Table, dataObjects: seq<Row>, calibrations: seq<Row>,
                                           objectPool: seq<string>, calibrationPool: seq<string>,
                                           error: Option<Error>)

  /**
   * The raw data object of a calibration file, appended to the run's data
   * objects, with the ID it was given; a pool that cannot hand out an ID
   * stops the run.
   */
  function ObjectStep(s: CalibrationRun, path: string, url: Option<string>, fs: FileSystem,
                      cfg: CalibrationSettings, pools: PoolSettings): (CalibrationRun, string)
  {
    var obj := DataObjectFromPool(s.objectPool, pools.threshold, pools.objectRefill, cfg.rawDataCategory,
                                  cfg.rawDataObjType, fs(path), cfg.rawDataObjDesc, cfg.rawDataUrl,
                                  Null, Null, Null, url);
    if obj.0.Err? then (s.(objectPool := obj.1, error := Some(obj.0.error)), "")
    else (s.(objectPool := obj.1, dataObjects := s.dataObjects + [obj.0.value]), RecordId(obj.0.value))
  }

  /**
   * The external calibration of that object, appended to the run's
   * calibrations, and its ID written into every row with the file.
   */
  function CalibrationOfObject(s: CalibrationRun, path: string, objectId: string, fs: FileSystem,
                               cfg: CalibrationSettings, pools: PoolSettings): CalibrationRun
  {
    var cal := Calibration(s.calibrationPool, pools.threshold, pools.calibrationRefill,
                           Str(cfg.calibrationStandard), Bool(false), fs(path).name, objectId);
    if cal.0.Err? then s.(calibrationPool := cal.1, error := Some(cal.0.error))
    else s.(calibrationPool := cal.1, calibrations := s.calibrations + [cal.0.value],
            table := AssignWhere(s.table, "calibration_file", path, "calibration_id", Get(cal.0.value, "id")))
  }

  /**
   * One calibration file: its URL, a raw data object for it, an external
   * calibration of that object, and the calibration's ID in the rows of
   * that file. The first failure stops the run where it is.
   */
  function CalibrationStep(s: CalibrationRun, file: Value, fs: FileSystem, cfg: CalibrationSettings,
                           pools: PoolSettings): CalibrationRun
  {
    if s.error.Some? then s
    else
      match CalibrationSource(s.table, file)
      case Err(e) => s.(error := Some(e))
      case Ok((path, url)) =>
        var (s1, objectId) := ObjectStep(s, path, url, fs, cfg, pools);
        if s1.error.Some? then s1 else CalibrationOfObject(s1, path, objectId, fs, cfg, pools)
  }

  /** The calibration files in first-occurrence order. */
  function CalibrationFiles(t: Table): (files: seq<Value>)
    ensures NoDuplicates(files)
    ensures forall i :: 0 <= i < |t.rows| ==> Get(t.rows[i], "calibration_file") in files
  {
    var col := Column(t, "calibration_file");
    assert forall i :: 0 <= i < |t.rows| ==> col[i] in col;
    Dedup(col)
  }

  /** The run over the first files, from state `s0`. */
  function CalibrationsFor(s0: CalibrationRun, files: seq<Value>, fs: FileSystem, cfg: CalibrationSettings,
                           pools: PoolSettings): CalibrationRun
  {
    if files == [] then s0
    else CalibrationStep(CalibrationsFor(s0, files[..|files| - 1], fs, cfg, pools), files[|files| - 1], fs, cfg, pools)
  }

  /** Once a step has raised, the remaining files change nothing. */
  lemma {:induction false} CalibrationsStop(s0: CalibrationRun, files: seq<Value>, k: nat, fs: FileSystem,
                                            cfg: CalibrationSettings, pools: PoolSettings)
    requires k <= |files| && CalibrationsFor(s0, files[..k], fs, cfg, pools).error.Some?
    ensures CalibrationsFor(s0, files, fs, cfg, pools) == CalibrationsFor(s0, files[..k], fs, cfg, pools)
    decreases |files| - k
  {
    if k < |files| {
      assert files[..k + 1][..k] == files[..k];
      CalibrationsStop(s0, files, k + 1, fs, cfg, pools);
    } else {
      assert files[..k] == files;
    }
  }

  /**
   * `r` is `s` after a successful step on `file`: one ID from each pool, and
   * the data object and its calibration appended.
   */
  ghost predicate SteppedRecords(s: CalibrationRun, file: Value, fs: FileSystem, pools: PoolSettings,
                                 r: CalibrationRun)
  {
    var obj := TakeId(DataObjectType, s.objectPool, pools.threshold, pools.objectRefill);
    var cal := TakeId(CalibrationInformationType, s.calibrationPool, pools.threshold, pools.calibrationRefill);
    file.Str? && obj.0.Ok? && cal.0.Ok? && r.objectPool == obj.1 && r.calibrationPool == cal.1
    && |r.dataObjects| == |s.dataObjects| + 1 && r.dataObjects[..|s.dataObjects|] == s.dataObjects
    && RecordId(r.dataObjects[|s.dataObjects|]) == obj.0.value
    && r.calibrations == s.calibrations + [CalibrationRecord(cal.0.value, fs(file.s).name, obj.0.value)]
  }

  /** The frame after that step: the calibration's ID in the rows of that file. */
  ghost predicate SteppedTable(s: CalibrationRun, file: Value, pools: PoolSettings, r: CalibrationRun)
  {
    var cal := TakeId(CalibrationInformationType, s.calibrationPool, pools.threshold, pools.calibrationRefill);
    file.Str? && cal.0.Ok? && r.calibrationPool == cal.1
    && r.table == AssignWhere(s.table, "calibration_file", file.s, "calibration_id", Str(cal.0.value))
  }

  /** A step that ends without an error started without one and took one ID from each pool. */
  lemma CalibrationStepOk(s: CalibrationRun, file: Value, fs: FileSystem, cfg: CalibrationSettings,
                          pools: PoolSettings)
    requires CalibrationStep(s, file, fs, cfg, pools).error.None?
    ensures s.error.None?
    ensures SteppedRecords(s, file, fs, pools, CalibrationStep(s, file, fs, cfg, pools))
    ensures SteppedTable(s, file, pools, CalibrationStep(s, file, fs, cfg, pools))
  {
    var r := CalibrationStep(s, file, fs, cfg, pools);
    var source := CalibrationSource(s.table, file);
    var (path, url) := source.value;
    var (s1, objectId) := ObjectStep(s, path, url, fs, cfg, pools);
    var obj := DataObjectFromPool(s.objectPool, pools.threshold, pools.objectRefill, cfg.rawDataCategory,
                                  cfg.rawDataObjType, fs(path), cfg.rawDataObjDesc, cfg.rawDataUrl,
                                  Null, Null, Null, url);
    assert s1.dataObjects == s.dataObjects + [obj.0.value];
    var cal := Calibration(s1.calibrationPool, pools.threshold, pools.calibrationRefill,
                           Str(cfg.calibrationStandard), Bool(false), fs(path).name, objectId);
    assert r == CalibrationOfObject(s1, path, objectId, fs, cfg, pools);
    assert r.dataObjects[..|s.dataObjects|] == s.dataObjects;
  }

  /**
   * The records of a run over `files` from an empty run: the IDs are the
   * next ones of each pool, and calibration `k` is the calibration of data
   * object `k`, named after file `k`.
   */
  ghost predicate LinkedRecords(s0: CalibrationRun, files: seq<Value>, fs: FileSystem, pools: PoolSettings,
                                r: CalibrationRun)
  {
    var n := |files|;
    var objs := TakeIds(DataObjectType, s0.objectPool, pools.threshold, pools.objectRefill, n);
    var cals := TakeIds(CalibrationInformationType, s0.calibrationPool, pools.threshold, pools.calibrationRefill, n);
    objs.error.None? && cals.error.None?
    && r.objectPool == objs.pool && r.calibrationPool == cals.pool
    && |r.dataObjects| == n && |r.calibrations| == n
    && LinkedAt(files, fs, r.dataObjects, r.calibrations, objs.ids, cals.ids)
  }

  /**
   * Data object `k` has object ID `k`, and calibration `k` has calibration
   * ID `k`, is named after file `k` and points at object ID `k`.
   */
  ghost predicate LinkedAt(files: seq<Value>, fs: FileSystem, objects: seq<Row>, calibrations: seq<Row>,
                           objIds: seq<string>, calIds: seq<string>)
  {
    |objects| == |calibrations| == |objIds| == |calIds| == |files|
    && forall k :: 0 <= k < |files| ==>
         files[k].Str? && RecordId(objects[k]) == objIds[k]
         && calibrations[k] == CalibrationRecord(calIds[k], fs(files[k].s).name, objIds[k])
  }

  /** `LinkedAt` extends by one file when the new last entries are linked. */
  lemma LinkedAtAppend(files: seq<Value>, fs: FileSystem, objects: seq<Row>, calibrations: seq<Row>,
                       objIds: seq<string>, calIds: seq<string>)
    requires |files| > 0 && |objects| == |calibrations| == |objIds| == |calIds| == |files|
    requires var n := |files| - 1;
      LinkedAt(files[..n], fs, objects[..n], calibrations[..n], objIds[..n], calIds[..n])
    requires var n := |files| - 1;
      files[n].Str? && RecordId(objects[n]) == objIds[n]
      && calibrations[n] == CalibrationRecord(calIds[n], fs(files[n].s).name, objIds[n])
    ensures LinkedAt(files, fs, objects, calibrations, objIds, calIds)
  {
    var n := |files| - 1;
    forall k | 0 <= k < n
      ensures files[k].Str? && RecordId(objects[k]) == objIds[k]
      ensures calibrations[k] == CalibrationRecord(calIds[k], fs(files[k].s).name, objIds[k])
    {
      assert files[k] == files[..n][k] && objects[k] == objects[..n][k] && objIds[k] == objIds[..n][k];
      assert calibrations[k] == calibrations[..n][k] && calIds[k] == calIds[..n][k];
    }
  }

  /**
   * Row `now` of such a run, from row `orig` of the frame it started with:
   * a row of file `k` carries the ID of calibration `k`, and the other
   * columns are as they were.
   */
  ghost predicate RowLinked(orig: Row, now: Row, files: seq<Value>, calIds: seq<string>)
  {
    (forall c :: c != "calibration_id" ==> Get(now, c) == Get(orig, c))
    && forall k :: 0 <= k < |files| && k < |calIds| && Get(orig, "calibration_file") == files[k] ==>
         Get(now, "calibration_id") == Str(calIds[k])
  }

  /** The frame of such a run, row by row. */
  ghost predicate LinkedTable(s0: CalibrationRun, files: seq<Value>, pools: PoolSettings, r: CalibrationRun)
  {
    var n := |files|;
    var cals := TakeIds(CalibrationInformationType, s0.calibrationPool, pools.threshold, pools.calibrationRefill, n);
    cals.error.None? && r.calibrationPool == cals.pool
    && |r.table.rows| == |s0.table.rows|
    && (n > 0 ==> "calibration_id" in r.table.columns)
    && (forall c :: c != "calibration_id" ==> (c in r.table.columns <==> c in s0.table.columns))
    && forall i :: 0 <= i < |s0.table.rows| ==> RowLinked(s0.table.rows[i], r.table.rows[i], files, cals.ids)
  }

  /** One row through one step: a row of the step's file gets the new ID, and no other row changes. */
  lemma RowLinkedStep(orig: Row, before: Row, after: Row, files: seq<Value>, calIds: seq<string>, hasColumn: bool)
    requires |files| > 0 && |calIds| == |files| && NoDuplicates(files) && files[|files| - 1].Str?
    requires RowLinked(orig, before, files[..|files| - 1], calIds[..|files| - 1])
    requires |files| > 1 ==> hasColumn
    requires after == if Get(before, "calibration_file") == files[|files| - 1] then before["calibration_id" := Str(calIds[|files| - 1])]
                      else if hasColumn then before else before["calibration_id" := NaN]
    ensures RowLinked(orig, after, files, calIds)
  {
    var n := |files| - 1;
    forall k | 0 <= k < |files| && Get(orig, "calibration_file") == files[k]
      ensures Get(after, "calibration_id") == Str(calIds[k])
    {
      assert Get(before, "calibration_file") == files[k];
      if k < n {
        assert files[k] != files[n];
        assert files[..n][k] == files[k] && calIds[..n][k] == calIds[k];
      }
    }
  }

  /** What `LinkedRecords` says of the pools, for a run over `n` files. */
  lemma LinkedRecordsOk(s0: CalibrationRun, files: seq<Value>, n: nat, fs: FileSystem, pools: PoolSettings,
                        r: CalibrationRun)
    requires |files| == n && LinkedRecords(s0, files, fs, pools, r)
    ensures |r.dataObjects| == |r.calibrations| == n
    ensures TakeIds(DataObjectType, s0.objectPool, pools.threshold, pools.objectRefill, n).error.None?
    ensures TakeIds(CalibrationInformationType, s0.calibrationPool, pools.threshold, pools.calibrationRefill, n).error.None?
  {
  }

  lemma LinkedRecordsStep(s0: CalibrationRun, files: seq<Value>, fs: FileSystem, pools: PoolSettings,
                          prev: CalibrationRun, r: CalibrationRun)
    requires |files| > 0
    requires LinkedRecords(s0, files[..|files| - 1], fs, pools, prev)
    requires SteppedRecords(prev, files[|files| - 1], fs, pools, r)
    ensures LinkedRecords(s0, files, fs, pools, r)
  {
    var n := |files| - 1;
    var objs := TakeIds(DataObjectType, s0.objectPool, pools.threshold, pools.objectRefill, n);
    var cals := TakeIds(CalibrationInformationType, s0.calibrationPool, pools.threshold, pools.calibrationRefill, n);
    LinkedRecordsOk(s0, files[..n], n, fs, pools, prev);
    assert objs == Taken(objs.ids, None, prev.objectPool) && cals == Taken(cals.ids, None, prev.calibrationPool);
    var obj := TakeId(DataObjectType, prev.objectPool, pools.threshold, pools.objectRefill);
    var cal := TakeId(CalibrationInformationType, prev.calibrationPool, pools.threshold, pools.calibrationRefill);
    TakeIdsOk(DataObjectType, s0.objectPool, pools.threshold, pools.objectRefill, n,
              objs.ids, prev.objectPool, obj.0.value, obj.1);
    TakeIdsOk(CalibrationInformationType, s0.calibrationPool, pools.threshold, pools.calibrationRefill, n,
              cals.ids, prev.calibrationPool, cal.0.value, cal.1);
    var objIds, calIds := objs.ids + [obj.0.value], cals.ids + [cal.0.value];
    assert objIds[..n] == objs.ids && calIds[..n] == cals.ids;
    assert r.dataObjects[..n] == prev.dataObjects && r.calibrations[..n] == prev.calibrations;
    LinkedAtAppend(files, fs, r.dataObjects, r.calibrations, objIds, calIds);
  }

  lemma LinkedTableStep(s0: CalibrationRun, files: seq<Value>, pools: PoolSettings,
                        prev: CalibrationRun, r: CalibrationRun)
    requires |files| > 0 && NoDuplicates(files)
    requires LinkedTable(s0, files[..|files| - 1], pools, prev)
    requires SteppedTable(prev, files[|files| - 1], pools, r)
    ensures LinkedTable(s0, files, pools, r)
  {
    var n := |files| - 1;
    var f := files[n];
    var cals := TakeIds(CalibrationInformationType, s0.calibrationPool, pools.threshold, pools.calibrationRefill, n);
    TakeIdsNext(CalibrationInformationType, s0.calibrationPool, pools.threshold, pools.calibrationRefill, n,
                cals.ids, cals.pool);
    var cals1 := TakeIds(CalibrationInformationType, s0.calibrationPool, pools.threshold, pools.calibrationRefill, n + 1);
    assert cals1.ids[..n] == cals.ids;
    var t := prev.table;
    assert r.table == AssignWhere(t, "calibration_file", f.s, "calibration_id", Str(cals1.ids[n]));
    forall c | c != "calibration_id" ensures c in r.table.columns <==> c in s0.table.columns {
      AssignWhereKeepsColumn(t, "calibration_file", f.s, "calibration_id", Str(cals1.ids[n]), c);
    }
    forall i | 0 <= i < |s0.table.rows| ensures RowLinked(s0.table.rows[i], r.table.rows[i], files, cals1.ids) {
      RowLinkedStep(s0.table.rows[i], t.rows[i], r.table.rows[i], files, cals1.ids, "calibration_id" in t.columns);
    }
  }

  /** One file more keeps the records and the frame linked. */
  lemma LinkedStep(s0: CalibrationRun, files: seq<Value>, fs: FileSystem, cfg: CalibrationSettings,
                   pools: PoolSettings, prev: CalibrationRun)
    requires |files| > 0 && NoDuplicates(files)
    requires CalibrationStep(prev, files[|files| - 1], fs, cfg, pools).error.None?
    requires LinkedRecords(s0, files[..|files| - 1], fs, pools, prev)
    requires LinkedTable(s0, files[..|files| - 1], pools, prev)
    ensures var r := CalibrationStep(prev, files[|files| - 1], fs, cfg, pools);
      LinkedRecords(s0, files, fs, pools, r) && LinkedTable(s0, files, pools, r)
  {
    var r := CalibrationStep(prev, files[|files| - 1], fs, cfg, pools);
    CalibrationStepOk(prev, files[|files| - 1], fs, cfg, pools);
    LinkedRecordsStep(s0, files, fs, pools, prev, r);
    LinkedTableStep(s0, files, pools, prev, r);
  }

  /**
   * A run over distinct files that ends without an error has one data
   * object and one calibration per file, linked as `LinkedRecords` and
   * `LinkedTable` say.
   */
  lemma {:induction false} CalibrationsLinked(s0: CalibrationRun, files: seq<Value>, fs: FileSystem,
                                              cfg: CalibrationSettings, pools: PoolSettings)
    requires s0.error.None? && s0.dataObjects == [] && s0.calibrations == []
    requires NoDuplicates(files)
    ensures var r := CalibrationsFor(s0, files, fs, cfg, pools);
      r.error.None? ==> LinkedRecords(s0, files, fs, pools, r) && LinkedTable(s0, files, pools, r)
    decreases |files|
  {
    var r := CalibrationsFor(s0, files, fs, cfg, pools);
    if files == [] || r.error.Some? {
      return;
    }
    var n := |files| - 1;
    var prev := CalibrationsFor(s0, files[..n], fs, cfg, pools);
    assert r == CalibrationStep(prev, files[n], fs, cfg, pools);
    CalibrationStepOk(prev, files[n], fs, cfg, pools);
    NoDuplicatesPrefix(files, n);
    CalibrationsLinked(s0, files[..n], fs, cfg, pools);
    LinkedStep(s0, files, fs, cfg, pools, prev);
  }

  /** Row `now` carries the calibration ID of the file row `orig` names. */
  ghost predicate RowCalibrated(orig: Row, now: Row, files: seq<Value>, calIds: seq<string>)
  {
    exists k :: 0 <= k < |files| && k < |calIds| && Get(orig, "calibration_file") == files[k]
                && Get(now, "calibration_id") == Str(calIds[k])
  }

  /** A linked run over files that include every row's file has given every row its file's calibration ID. */
  lemma LinkedCoversRows(s0: CalibrationRun, files: seq<Value>, pools: PoolSettings, r: CalibrationRun)
    requires LinkedTable(s0, files, pools, r)
    requires forall i :: 0 <= i < |s0.table.rows| ==> Get(s0.table.rows[i], "calibration_file") in files
    ensures var cals := TakeIds(CalibrationInformationType, s0.calibrationPool, pools.threshold,
                                pools.calibrationRefill, |files|);
      |cals.ids| == |files| && |r.table.rows| == |s0.table.rows|
      && forall i :: 0 <= i < |s0.table.rows| ==> RowCalibrated(s0.table.rows[i], r.table.rows[i], files, cals.ids)
  {
    var cals := TakeIds(CalibrationInformationType, s0.calibrationPool, pools.threshold, pools.calibrationRefill, |files|);
    forall i | 0 <= i < |s0.table.rows| ensures RowCalibrated(s0.table.rows[i], r.table.rows[i], files, cals.ids) {
      assert Get(s0.table.rows[i], "calibration_file") in files;
      var k :| 0 <= k < |files| && files[k] == Get(s0.table.rows[i], "calibration_file");
      assert RowLinked(s0.table.rows[i], r.table.rows[i], files, cals.ids);
    }
  }

  /**
   * On success over distinct files that cover every row, every row of the
   * frame ends up with the ID of the calibration made for its file (the
   * next IDs of the calibration pool, one per file).
   */
  lemma EveryRowCalibrated(s0: CalibrationRun, files: seq<Value>, fs: FileSystem, cfg: CalibrationSettings,
                           pools: PoolSettings)
    requires s0.error.None? && s0.dataObjects == [] && s0.calibrations == []
    requires NoDuplicates(files)
    requires forall i :: 0 <= i < |s0.table.rows| ==> Get(s0.table.rows[i], "calibration_file") in files
    ensures var r := CalibrationsFor(s0, files, fs, cfg, pools);
      var cals := TakeIds(CalibrationInformationType, s0.calibrationPool, pools.threshold, pools.calibrationRefill,
                          |files|);
      r.error.None? ==>
        |cals.ids| == |files| && |r.calibrations| == |files| && |r.table.rows| == |s0.table.rows|
        && forall i :: 0 <= i < |s0.table.rows| ==> RowCalibrated(s0.table.rows[i], r.table.rows[i], files, cals.ids)
  {
    CalibrationsLinked(s0, files, fs, cfg, pools);
    var r := CalibrationsFor(s0, files, fs, cfg, pools);
    if r.error.None? {
      LinkedCoversRows(s0, files, pools, r);
    }
  }

  /** The frame, database and pools hold state `s` of a run that started with the given record lists. */
  ghost predicate InRun(df: DataFrame, db: Database, pool: IDPool, objects0: seq<Row>, calibrations0: seq<Row>,
                        s: CalibrationRun)
    reads df, db, pool
  {
    df.table == s.table && db.dataObjectSet == objects0 + s.dataObjects
    && db.calibrationSet == calibrations0 + s.calibrations
    && pool.Pool(DataObjectType) == s.objectPool && pool.Pool(CalibrationInformationType) == s.calibrationPool
  }

  /** The raw data object of a calibration file, appended to the database. */
  method AddCalibrationObject(df: DataFrame, db: Database, pool: IDPool, mint: Minter, fs: FileSystem,
                              cfg: CalibrationSettings, path: string, url: Option<string>, ghost s: CalibrationRun,
                              ghost objects0: seq<Row>, ghost calibrations0: seq<Row>)
    returns (err: Option<Error>, objectId: string)
    requires s.error.None? && InRun(df, db, pool, objects0, calibrations0, s)
    modifies db`dataObjectSet, pool
    ensures var r := ObjectStep(s, path, url, fs, cfg, PoolSettingsOf(pool, mint));
      InRun(df, db, pool, objects0, calibrations0, r.0) && err == r.0.error && objectId == r.1
    ensures forall u :: u != DataObjectType ==> pool.Pool(u) == old(pool.Pool(u))
  {
    ghost var pools := PoolSettingsOf(pool, mint);
    ghost var obj := DataObjectFromPool(s.objectPool, pools.threshold, pools.objectRefill, cfg.rawDataCategory,
                                        cfg.rawDataObjType, fs(path), cfg.rawDataObjDesc, cfg.rawDataUrl,
                                        Null, Null, Null, url);
    var dataObject := GenerateDataObject(pool, mint, cfg.rawDataCategory, cfg.rawDataObjType, fs(path),
                                         cfg.rawDataObjDesc, cfg.rawDataUrl, Null, Null, Null, url);
    assert obj == (dataObject, pool.Pool(DataObjectType));
    if dataObject.Err? {
      assert ObjectStep(s, path, url, fs, cfg, pools) == (s.(objectPool := obj.1, error := Some(obj.0.error)), "");
      return Some(dataObject.error), "";
    }
    db.dataObjectSet := db.dataObjectSet + [dataObject.value];
    assert ObjectStep(s, path, url, fs, cfg, pools)
        == (s.(objectPool := obj.1, dataObjects := s.dataObjects + [obj.0.value]), RecordId(obj.0.value));
    return None, RecordId(dataObject.value);
  }

  /** The calibration of a calibration file's data object, appended, and its ID put in the frame. */
  method AddCalibration(df: DataFrame, db: Database, pool: IDPool, mint: Minter, fs: FileSystem,
                        cfg: CalibrationSettings, path: string, objectId: string, ghost s: CalibrationRun,
                        ghost objects0: seq<Row>, ghost calibrations0: seq<Row>)
    returns (err: Option<Error>)
    requires s.error.None? && InRun(df, db, pool, objects0, calibrations0, s)
    modifies df`table, db`calibrationSet, pool
    ensures var r := CalibrationOfObject(s, path, objectId, fs, cfg, PoolSettingsOf(pool, mint));
      InRun(df, db, pool, objects0, calibrations0, r) && err == r.error
    ensures forall u :: u != CalibrationInformationType ==> pool.Pool(u) == old(pool.Pool(u))
  {
    ghost var pools := PoolSettingsOf(pool, mint);
    ghost var cal := Calibration(s.calibrationPool, pools.threshold, pools.calibrationRefill,
                                 Str(cfg.calibrationStandard), Bool(false), fs(path).name, objectId);
    assert |DataObjectType| != |CalibrationInformationType|;
    var calibration := GenerateCalibration(pool, mint, fs(path).name, objectId,
                                           Str(cfg.calibrationStandard), Bool(false));
    assert cal == (calibration, pool.Pool(CalibrationInformationType));
    assert pool.Pool(DataObjectType) == s.objectPool;
    if calibration.Err? {
      assert CalibrationOfObject(s, path, objectId, fs, cfg, pools)
          == s.(calibrationPool := cal.1, error := Some(cal.0.error));
      return Some(calibration.error);
    }
    db.calibrationSet := db.calibrationSet + [calibration.value];
    df.table := AssignWhere(df.table, "calibration_file", path, "calibration_id", Get(calibration.value, "id"));
    assert CalibrationOfObject(s, path, objectId, fs, cfg, pools)
        == s.(calibrationPool := cal.1, calibrations := s.calibrations + [cal.0.value],
              table := AssignWhere(s.table, "calibration_file", path, "calibration_id", Get(cal.0.value, "id")));
    return None;
  }

  /** The body of the `generate_calibration_id` loop for one file. */
  method CalibrateFile(df: DataFrame, db: Database, pool: IDPool, mint: Minter, fs: FileSystem,
                       cfg: CalibrationSettings, file: Value, ghost s: CalibrationRun,
                       ghost objects0: seq<Row>, ghost calibrations0: seq<Row>)
    returns (err: Option<Error>)
    requires s.error.None? && InRun(df, db, pool, objects0, calibrations0, s)
    modifies df`table, db`dataObjectSet, db`calibrationSet, pool
    ensures var r := CalibrationStep(s, file, fs, cfg, PoolSettingsOf(pool, mint));
      InRun(df, db, pool, objects0, calibrations0, r) && err == r.error
    ensures forall u :: u != DataObjectType && u != CalibrationInformationType ==> pool.Pool(u) == old(pool.Pool(u))
  {
    var source := CalibrationSource(df.table, file);
    if source.Err? {
      return Some(source.error);
    }
    var (path, url) := source.value;
    ghost var pools := PoolSettingsOf(pool, mint);
    ghost var s1 := ObjectStep(s, path, url, fs, cfg, pools);
    var objectId;
    err, objectId := AddCalibrationObject(df, db, pool, mint, fs, cfg, path, url, s, objects0, calibrations0);
    if err.Some? {
      return;
    }
    err := AddCalibration(df, db, pool, mint, fs, cfg, path, objectId, s1.0, objects0, calibrations0);
  }

  /**
   * The outcome of `generate_calibration_id` on a frame that held `t0`, a
   * database that held `objects0` and `calibrations0`, and pools that held
   * `objectPool0` and `calibrationPool0`: KeyError without a
   * `calibration_file` column, otherwise the run over the distinct files.
   */
  ghost predicate CalibrationIdsGenerated(df: DataFrame, db: Database, pool: IDPool, mint: Minter, fs: FileSystem,
                                          cfg: CalibrationSettings, t0: Table, objects0: seq<Row>,
                                          calibrations0: seq<Row>, objectPool0: seq<string>,
                                          calibrationPool0: seq<string>, err: Option<Error>)
    reads df, db, pool
  {
    var s0 := CalibrationRun(t0, [], [], objectPool0, calibrationPool0, None);
    if "calibration_file" !in t0.columns then
      err == Some(Error(KeyError, ["calibration_file"]))
      && InRun(df, db, pool, objects0, calibrations0, s0.(error := err))
    else
      var r := CalibrationsFor(s0, CalibrationFiles(t0), fs, cfg, PoolSettingsOf(pool, mint));
      InRun(df, db, pool, objects0, calibrations0, r) && err == r.error
  }

  /**
   * `generate_calibration_id`: for each distinct calibration file, in
   * first-occurrence order, one raw data object and one calibration, with
   * the calibration's ID written into the rows of that file. A frame
   * without a `calibration_file` column raises KeyError.
   */
  method GenerateCalibrationId(df: DataFrame, db: Database, pool: IDPool, mint: Minter, fs: FileSystem,
                               cfg: CalibrationSettings)
    returns (err: Option<Error>)
    modifies df`table, db`dataObjectSet, db`calibrationSet, pool
    ensures CalibrationIdsGenerated(df, db, pool, mint, fs, cfg, old(df.table), old(db.dataObjectSet),
                                    old(db.calibrationSet), old(pool.Pool(DataObjectType)),
                                    old(pool.Pool(CalibrationInformationType)), err)
    ensures forall u :: u != DataObjectType && u != CalibrationInformationType ==> pool.Pool(u) == old(pool.Pool(u))
  {
    if "calibration_file" !in df.table.columns {
      return Some(Error(KeyError, ["calibration_file"]));
    }
    var files := CalibrationFiles(df.table);
    ghost var s0 := CalibrationRun(df.table, [], [], pool.Pool(DataObjectType),
                                   pool.Pool(CalibrationInformationType), None);
    ghost var objects0, calibrations0 := db.dataObjectSet, db.calibrationSet;
    ghost var pools := PoolSettingsOf(pool, mint);
    assert files[..0] == [];
    err := None;
    var k := 0;
    while k < |files| && err.None?
      invariant 0 <= k <= |files|
      invariant InRun(df, db, pool, objects0, calibrations0, CalibrationsFor(s0, files[..k], fs, cfg, pools))
      invariant err == CalibrationsFor(s0, files[..k], fs, cfg, pools).error
      invariant forall u :: u != DataObjectType && u != CalibrationInformationType ==> pool.Pool(u) == old(pool.Pool(u))
    {
      assert files[..k + 1][..k] == files[..k];
      err := CalibrateFile(df, db, pool, mint, fs, cfg, files[k], CalibrationsFor(s0, files[..k], fs, cfg, pools),
                           objects0, calibrations0);
      k := k + 1;
    }
    if err.Some? {
      CalibrationsStop(s0, files, k, fs, cfg, pools);
    } else {
      assert files[..k] == files;
    }
  }

  /** `run` generates calibrations only when no row has a `calibration_id` yet. */
  predicate NeedsCalibrationIds(t: Table)
  {
    "calibration_id" !in t.columns || AllNull(t, "calibration_id")
  }

  /**
   * The calibration part of `run`: an unsupported calibration standard
   * raises ValueError before anything is built; calibrations are then
   * generated only when the frame has no calibration IDs, and otherwise
   * nothing changes.
   */
  method PrepareCalibrations(df: DataFrame, db: Database, pool: IDPool, mint: Minter, fs: FileSystem,
                             cfg: CalibrationSettings)
    returns (err: Option<Error>)
    modifies df`table, db`dataObjectSet, db`calibrationSet, pool
    ensures cfg.calibrationStandard != "fames" ==> err == CheckCalibrationStandard(cfg.calibrationStandard)
    ensures cfg.calibrationStandard != "fames" || !NeedsCalibrationIds(old(df.table)) ==>
      df.table == old(df.table) && db.dataObjectSet == old(db.dataObjectSet)
      && db.calibrationSet == old(db.calibrationSet) && pool.pools == old(pool.pools)
    ensures cfg.calibrationStandard == "fames" && !NeedsCalibrationIds(old(df.table)) ==> err.None?
    ensures cfg.calibrationStandard == "fames" && NeedsCalibrationIds(old(df.table)) ==>
      CalibrationIdsGenerated(df, db, pool, mint, fs, cfg, old(df.table), old(db.dataObjectSet),
                              old(db.calibrationSet), old(pool.Pool(DataObjectType)),
                              old(pool.Pool(CalibrationInformationType)), err)
    ensures forall u :: u != DataObjectType && u != CalibrationInformationType ==> pool.Pool(u) == old(pool.Pool(u))
  {
    err := CheckCalibrationStandard(cfg.calibrationStandard);
    if err.Some? {
      return;
    }
    if NeedsCalibrationIds(df.table) {
      err := GenerateCalibrationId(df, db, pool, mint, fs, cfg);
    }
  }
}
