/**
 * The LC/MS generator (lipidomics and metabolomics): the classification of
 * a processed-data directory into its parameter, annotation and HDF5 files,
 * the data objects made for them, and the inputs and outputs the analysis
 * is given at the end of a row of `run` or `rerun`.
 */
module LcmsMetadata {
  import opened Common
  import opened Frames
  import opened IdPool
  import opened MetadataGenerator
  import Nom = NomMetadata

  /** The constants an LC/MS generator fixes for its processed-data records. */
  datatype LcmsSettings = LcmsSettings(
    processDataUrl: string,
    wfConfigProcessDataCategory: string, wfConfigProcessDataObjType: string, wfConfigProcessDataDescription: string,
    noConfigProcessDataCategory: string, noConfigProcessDataObjType: string, csvProcessDataDescription: string,
    hdf5ProcessDataObjType: string, hdf5ProcessDataDescription: string,
    existingDataObjects: seq<string>)

  // ---------------------------------------------------------------------
  // File kinds: the first of pathlib's suffixes
  // ---------------------------------------------------------------------

  /** `s.lstrip(".")`. */
  function LStripDots(s: string): (r: string)
    ensures |r| <= |s| && r == s[|s| - |r|..]
    ensures r == [] || r[0] != '.'
    ensures forall i :: 0 <= i < |s| - |r| ==> s[i] == '.'
  {
    if s != [] && s[0] == '.' then LStripDots(s[1..]) else s
  }

  /**
   * `Path.suffixes[0].lstrip(".")` of a file name, or None when the name
   * has no suffixes: a name ending in a dot has none, and otherwise the
   * suffixes are the dot-separated pieces after the first one of the name
   * stripped of its leading dots.
   */
  function FirstSuffix(name: string): (r: Option<string>)
    ensures r.Some? ==> '.' !in r.value
    ensures r.Some? <==> (name == [] || name[|name| - 1] != '.') && '.' in LStripDots(name)
  {
    if name != [] && name[|name| - 1] == '.' then None
    else
      var parts := SplitOn(LStripDots(name), '.');
      if |parts| < 2 then None else Some(parts[1])
  }

  /** A dot-free stem followed by ".ext" and possibly more suffixes has "ext" as its first suffix. */
  lemma FirstSuffixOf(stem: string, ext: string, rest: string)
    requires stem != [] && '.' !in stem && '.' !in ext
    requires rest == [] || rest[0] == '.'
    requires var name := stem + "." + ext + rest; name[|name| - 1] != '.'
    ensures FirstSuffix(stem + "." + ext + rest) == Some(ext)
  {
    var name := stem + "." + ext + rest;
    assert name == stem + ['.'] + (ext + rest);
    assert name[0] == stem[0];
    assert LStripDots(name) == name;
    SplitOnAfter(stem, '.', ext + rest);
    var parts := SplitOn(name, '.');
    FirstPiece(ext, rest);
    assert parts[1] == SplitOn(ext + rest, '.')[0];
  }

  /** The first piece of a dot-free `ext` followed by nothing or a dot is `ext`. */
  lemma FirstPiece(ext: string, rest: string)
    requires '.' !in ext && (rest == [] || rest[0] == '.')
    ensures SplitOn(ext + rest, '.')[0] == ext
  {
    if rest == [] {
      assert ext + rest == ext;
    } else {
      assert ext + rest == ext + ['.'] + rest[1..];
      SplitOnAfter(ext, '.', rest[1..]);
    }
  }

  /** A compressed annotation file counts by its first suffix. */
  lemma CompressedCsvIsCsv()
    ensures FirstSuffix("a.csv.gz") == Some("csv")
  {
    assert "a.csv.gz" == "a" + "." + "csv" + ".gz";
    FirstSuffixOf("a", "csv", ".gz");
  }

  /** What a processed-data file is, by its first suffix. */
  datatype LcmsKind = Parameters | Annotations | Hdf5Data | Unexpected | Unsuffixed

  /** "toml" is the parameter file, "csv" the annotations, "hdf5" the processed data, anything else unexpected. */
  function KindOfSuffix(suffix: Option<string>): (k: LcmsKind)
    ensures k == Unsuffixed <==> suffix.None?
    ensures k == Parameters <==> suffix == Some("toml")
    ensures k == Annotations <==> suffix == Some("csv")
    ensures k == Hdf5Data <==> suffix == Some("hdf5")
  {
    match suffix
    case None => Unsuffixed
    case Some(t) =>
      if t == "toml" then Parameters
      else if t == "csv" then Annotations
      else if t == "hdf5" then Hdf5Data
      else Unexpected
  }

  function LcmsKindOf(f: Nom.DirEntry): LcmsKind
  {
    KindOfSuffix(FirstSuffix(PathName(f.path)))
  }

  /** A file of the directory with its kind. */
  datatype KindedFile = KindedFile(entry: Nom.DirEntry, kind: LcmsKind)

  /** The files with their kinds, in order. */
  function Kinded(files: seq<Nom.DirEntry>): (r: seq<KindedFile>)
    ensures |r| == |files|
    ensures forall i :: 0 <= i < |files| ==> r[i] == KindedFile(files[i], LcmsKindOf(files[i]))
  {
    seq(|files|, i requires 0 <= i < |files| => KindedFile(files[i], LcmsKindOf(files[i])))
  }

  /** The kinds that are given a data object. */
  predicate Made(k: LcmsKind)
  {
    k == Parameters || k == Annotations || k == Hdf5Data
  }

  /** The kinds whose IDs are listed as processed data. */
  predicate Listed(k: LcmsKind)
  {
    k == Annotations || k == Hdf5Data
  }

  // ---------------------------------------------------------------------
  // The classification loop
  // ---------------------------------------------------------------------

  /**
   * One of the three locals holding the objects made for a row: unbound
   * before anything was assigned, None after a completed row resets it,
   * or the ID of the object it holds.
   */
  datatype Held = Unbound | Cleared | Holds(id: string)

  /** The locals of a row: the processed IDs and the three objects. */
  datatype RowVars = RowVars(processed: seq<string>, config: Held, annot: Held, hdf5: Held)

  /** Everything a step of the loop reads besides the run itself. */
  datatype DirContext = DirContext(cfg: LcmsSettings, fs: FileSystem, clock: FileClock, baseUrl: string,
                                   analysisId: Value, threshold: nat, refill: Refill)

  function KindCategory(k: LcmsKind, cfg: LcmsSettings): string
  {
    if k == Parameters then cfg.wfConfigProcessDataCategory else cfg.noConfigProcessDataCategory
  }

  function KindObjectType(k: LcmsKind, cfg: LcmsSettings): string
  {
    match k
    case Parameters => cfg.wfConfigProcessDataObjType
    case Hdf5Data => cfg.hdf5ProcessDataObjType
    case _ => cfg.noConfigProcessDataObjType
  }

  function KindDescription(k: LcmsKind, cfg: LcmsSettings): string
  {
    match k
    case Parameters => cfg.wfConfigProcessDataDescription
    case Hdf5Data => cfg.hdf5ProcessDataDescription
    case _ => cfg.csvProcessDataDescription
  }

  /** The data object of a file with the ID `id`, generated by the analysis. */
  function DirObject(f: KindedFile, id: string, ctx: DirContext): (r: Row)
    ensures RecordId(r) == id
  {
    DataObjectRecord(id, KindCategory(f.kind, ctx.cfg), KindObjectType(f.kind, ctx.cfg), ctx.fs(f.entry.path),
                     KindDescription(f.kind, ctx.cfg), ctx.baseUrl, ctx.analysisId, Null, Null, None)
  }

  /** The data objects of files paired with their IDs, in order. */
  function DirObjects(stored: seq<(KindedFile, string)>, ctx: DirContext): (r: seq<Row>)
    ensures |r| == |stored|
  {
    if stored == [] then []
    else
      var n := |stored| - 1;
      DirObjects(stored[..n], ctx) + [DirObject(stored[n].0, stored[n].1, ctx)]
  }

  /** The analysis times an HDF5 file gives: its change time, then its modification time. */
  function Hdf5Times(clock: FileClock, f: Nom.DirEntry): (int, int)
  {
    var t := clock(f.path);
    (t.1, t.0)
  }

  /**
   * The state of the loop: the files given objects so far with their IDs
   * (their objects follow the database's earlier ones), the row's locals,
   * the analysis record, the DataObject pool and the exception that
   * stopped the loop.
   */
  datatype DirRun = DirRun(stored: seq<(KindedFile, string)>, vars: RowVars, analysis: Row, objectPool: seq<string>,
                           error: Option<Error>)

  /** A file given the ID `id`, recorded as its kind says (the analysis takes an HDF5 file's times). */
  function Recorded(s: DirRun, f: KindedFile, id: string, ctx: DirContext): DirRun
  {
    var v := s.vars;
    match f.kind
    case Parameters => s.(vars := v.(config := Holds(id)))
    case Annotations => s.(vars := v.(annot := Holds(id), processed := v.processed + [id]))
    case Hdf5Data =>
      s.(vars := v.(hdf5 := Holds(id), processed := v.processed + [id]),
         analysis := Nom.Timed(s.analysis, Hdf5Times(ctx.clock, f.entry)))
    case _ => s
  }

  /**
   * One file of the loop: a file without suffixes is skipped, an unexpected
   * kind raises ValueError, and the others take an ID from the pool and are
   * recorded.
   */
  function DirStep(s: DirRun, f: KindedFile, ctx: DirContext): DirRun
  {
    if s.error.Some? || f.kind == Unsuffixed then s
    else if f.kind == Unexpected then s.(error := Some(Error(ValueError, [f.entry.path])))
    else
      var next := TakeId(DataObjectType, s.objectPool, ctx.threshold, ctx.refill);
      if next.0.Err? then s.(objectPool := next.1, error := Some(next.0.error))
      else Recorded(s.(objectPool := next.1, stored := s.stored + [(f, next.0.value)]), f, next.0.value, ctx)
  }

  /** The loop over the files, in order. */
  function DirScan(s0: DirRun, files: seq<KindedFile>, ctx: DirContext): DirRun
  {
    if files == [] then s0 else DirStep(DirScan(s0, files[..|files| - 1], ctx), files[|files| - 1], ctx)
  }

  lemma DirScanNext(s0: DirRun, files: seq<KindedFile>, k: nat, ctx: DirContext)
    requires k < |files|
    ensures DirScan(s0, files[..k + 1], ctx) == DirStep(DirScan(s0, files[..k], ctx), files[k], ctx)
  {
    assert files[..k + 1][..k] == files[..k];
  }

  lemma {:induction false} DirScanStops(s0: DirRun, files: seq<KindedFile>, k: nat, ctx: DirContext)
    requires k <= |files| && DirScan(s0, files[..k], ctx).error.Some?
    ensures DirScan(s0, files, ctx) == DirScan(s0, files[..k], ctx)
    decreases |files| - k
  {
    if k < |files| {
      assert files[..k + 1][..k] == files[..k];
      DirScanStops(s0, files, k + 1, ctx);
    } else {
      assert files[..k] == files;
    }
  }

  /**
   * The check after the loop, as written: the three locals are tested in
   * order, and the first that does not hold an object raises, NameError
   * (UnboundLocalError) when it was never assigned and ValueError when it is
   * None.
   */
  function MissingObject(v: RowVars): (r: Option<Error>)
    ensures r.None? <==> v.config.Holds? && v.annot.Holds? && v.hdf5.Holds?
    ensures r.Some? ==> r.value.kind == NameError || r.value.kind == ValueError
    ensures r.Some? && r.value.kind == NameError ==> v.config == Unbound || v.annot == Unbound || v.hdf5 == Unbound
  {
    if !v.config.Holds? then Some(Unassigned(v.config, "processed_data_object_config"))
    else if !v.annot.Holds? then Some(Unassigned(v.annot, "processed_data_object_annot"))
    else if !v.hdf5.Holds? then Some(Unassigned(v.hdf5, "processed_data_object"))
    else None
  }

  function Unassigned(h: Held, name: string): (e: Error)
    requires !h.Holds?
    ensures e.kind == NameError <==> h == Unbound
    ensures e.kind == NameError || e.kind == ValueError
  {
    if h == Unbound then Error(NameError, [name]) else Error(ValueError, [])
  }

  /** What the classification gives back: the parameter ID and the processed IDs, or the exception. */
  function DirOutcome(s: DirRun): (r: Result<(string, seq<string>)>)
    ensures r.Ok? <==> s.error.None? && MissingObject(s.vars).None?
    ensures r.Ok? ==> r.value == (s.vars.config.id, s.vars.processed)
    ensures s.error.Some? ==> r == Err(s.error.value)
  {
    if s.error.Some? then Err(s.error.value)
    else
      var missing := MissingObject(s.vars);
      if missing.Some? then Err(missing.value)
      else Ok((s.vars.config.id, s.vars.processed))
  }

  /**
   * The locals at the start of a row as the code leaves them: never
   * assigned before the first row, and reset to None after each completed
   * row.
   */
  function RowStartAsWritten(firstRow: bool): (h: Held)
    ensures h != Cleared <==> firstRow
    ensures !h.Holds?
  {
    if firstRow then Unbound else Cleared
  }

  /** The run before the loop of a row whose locals start as `h`. */
  function DirStart(analysis: Row, pool: seq<string>, h: Held): DirRun
  {
    DirRun([], RowVars([], h, h, h), analysis, pool, None)
  }

  /** The database, the analysis and the pool as the run says, after the database's `base` objects. */
  ghost predicate DirStored(db: Database, analysis: SchemaObject, pool: IDPool, base: seq<Row>, s: DirRun,
                            ctx: DirContext)
    reads db, analysis, pool
  {
    db.dataObjectSet == base + DirObjects(s.stored, ctx) && analysis.slots == s.analysis
    && pool.Pool(DataObjectType) == s.objectPool
  }

  /** A file's data object appended, and the row's locals and analysis updated as its kind says. */
  method StoreDirObject(db: Database, analysis: SchemaObject, f: KindedFile, obj: Row, ctx: DirContext,
                        vars: RowVars, ghost base: seq<Row>, ghost s: DirRun)
    returns (vars': RowVars)
    requires obj == DirObject(f, RecordId(obj), ctx) && Made(f.kind)
    requires db.dataObjectSet == base + DirObjects(s.stored, ctx) && analysis.slots == s.analysis && vars == s.vars
    modifies db`dataObjectSet, analysis`slots
    ensures var r := Recorded(s.(stored := s.stored + [(f, RecordId(obj))]), f, RecordId(obj), ctx);
      db.dataObjectSet == base + DirObjects(r.stored, ctx) && analysis.slots == r.analysis && vars' == r.vars
  {
    ghost var stored' := s.stored + [(f, RecordId(obj))];
    assert DirObjects(stored', ctx) == DirObjects(s.stored, ctx) + [obj] by {
      AppendLast(s.stored, (f, RecordId(obj)));
    }
    AppendAssoc(base, DirObjects(s.stored, ctx), [obj]);
    db.dataObjectSet := db.dataObjectSet + [obj];
    var id := RecordId(obj);
    match f.kind
    case Parameters =>
      vars' := vars.(config := Holds(id));
    case Annotations =>
      vars' := vars.(annot := Holds(id), processed := vars.processed + [id]);
    case Hdf5Data =>
      vars' := vars.(hdf5 := Holds(id), processed := vars.processed + [id]);
      analysis.slots := Nom.Timed(analysis.slots, Hdf5Times(ctx.clock, f.entry));
  }

  /** A step whose pool take fails stops the loop with that error. */
  lemma DirStepFails(s: DirRun, f: KindedFile, ctx: DirContext, obj: Result<Row>, pool: seq<string>)
    requires s.error.None? && Made(f.kind)
    requires (obj, pool) == DataObjectFromPool(s.objectPool, ctx.threshold, ctx.refill, KindCategory(f.kind, ctx.cfg),
                                               KindObjectType(f.kind, ctx.cfg), ctx.fs(f.entry.path),
                                               KindDescription(f.kind, ctx.cfg), ctx.baseUrl, ctx.analysisId,
                                               Null, Null, None)
    requires obj.Err?
    ensures DirStep(s, f, ctx) == s.(objectPool := pool, error := Some(obj.error))
  {
  }

  /** A step whose pool take succeeds makes the file's object and records the file. */
  lemma DirStepMakes(s: DirRun, f: KindedFile, ctx: DirContext, obj: Result<Row>, pool: seq<string>)
    requires s.error.None? && Made(f.kind)
    requires (obj, pool) == DataObjectFromPool(s.objectPool, ctx.threshold, ctx.refill, KindCategory(f.kind, ctx.cfg),
                                               KindObjectType(f.kind, ctx.cfg), ctx.fs(f.entry.path),
                                               KindDescription(f.kind, ctx.cfg), ctx.baseUrl, ctx.analysisId,
                                               Null, Null, None)
    requires obj.Ok?
    ensures obj.value == DirObject(f, RecordId(obj.value), ctx)
    ensures DirStep(s, f, ctx)
         == Recorded(s.(objectPool := pool, stored := s.stored + [(f, RecordId(obj.value))]), f, RecordId(obj.value), ctx)
  {
  }

  /** One file of the loop, carried out on the database, the analysis and the pool. */
  method ClassifyFile(db: Database, analysis: SchemaObject, pool: IDPool, mint: Minter, f: KindedFile, ctx: DirContext,
                      vars: RowVars, ghost base: seq<Row>, ghost s: DirRun)
    returns (err: Option<Error>, vars': RowVars)
    requires s.error.None? && DirStored(db, analysis, pool, base, s, ctx) && vars == s.vars
    requires ctx.threshold == pool.refillThreshold && ctx.refill == DefaultRefill(mint, DataObjectType, pool.poolSize)
    modifies db`dataObjectSet, analysis`slots, pool
    ensures var r := DirStep(s, f, ctx);
      DirStored(db, analysis, pool, base, r, ctx) && err == r.error && vars' == r.vars
    ensures forall u :: u != DataObjectType ==> pool.Pool(u) == old(pool.Pool(u))
  {
    var k := f.kind;
    if k == Unsuffixed {
      return None, vars;
    }
    if k == Unexpected {
      return Some(Error(ValueError, [f.entry.path])), vars;
    }
    var obj := GenerateDataObject(pool, mint, KindCategory(k, ctx.cfg), KindObjectType(k, ctx.cfg), ctx.fs(f.entry.path),
                                  KindDescription(k, ctx.cfg), ctx.baseUrl, ctx.analysisId, Null, Null, None);
    if obj.Err? {
      DirStepFails(s, f, ctx, obj, pool.Pool(DataObjectType));
      return Some(obj.error), vars;
    }
    DirStepMakes(s, f, ctx, obj, pool.Pool(DataObjectType));
    ghost var s1 := s.(objectPool := pool.Pool(DataObjectType));
    vars' := StoreDirObject(db, analysis, f, obj.value, ctx, vars, base, s1);
    err := None;
  }

  /**
   * The processed-data part of a row of `run` or `rerun`: the regular files
   * under the directory, which must be exactly three, each given a data
   * object as its kind says; an empty listing raises FileNotFoundError, a
   * different number of files ValueError, and so does a directory that does
   * not yield all three objects. The locals start as None, as they do on
   * every row but the first.
   */
  method ProcessedDirectoryObjects(db: Database, analysis: SchemaObject, pool: IDPool, mint: Minter, fs: FileSystem,
                                   clock: FileClock, listing: Nom.Listing, cfg: LcmsSettings, directory: string)
    returns (r: Result<(string, seq<string>)>)
    modifies db`dataObjectSet, analysis`slots, pool
    ensures listing(directory) == [] ==>
      r == Err(Error(FileNotFoundError, [directory]))
      && db.dataObjectSet == old(db.dataObjectSet) && analysis.slots == old(analysis.slots) && pool.pools == old(pool.pools)
    ensures listing(directory) != [] && |Nom.RegularFiles(listing(directory))| != 3 ==>
      r == Err(Error(ValueError, [directory]))
      && db.dataObjectSet == old(db.dataObjectSet) && analysis.slots == old(analysis.slots) && pool.pools == old(pool.pools)
    ensures listing(directory) != [] && |Nom.RegularFiles(listing(directory))| == 3 ==>
      var ctx := DirContext(cfg, fs, clock, cfg.processDataUrl + PathName(directory) + "/", Get(old(analysis.slots), "id"),
                            pool.refillThreshold, DefaultRefill(mint, DataObjectType, pool.poolSize));
      var s := DirScan(DirStart(old(analysis.slots), old(pool.Pool(DataObjectType)), Cleared),
                       Kinded(Nom.RegularFiles(listing(directory))), ctx);
      DirStored(db, analysis, pool, old(db.dataObjectSet), s, ctx) && r == DirOutcome(s)
    ensures forall u :: u != DataObjectType ==> pool.Pool(u) == old(pool.Pool(u))
  {
    var entries := listing(directory);
    if entries == [] {
      return Err(Error(FileNotFoundError, [directory]));
    }
    var regular := Nom.RegularFiles(entries);
    if |regular| != 3 {
      return Err(Error(ValueError, [directory]));
    }
    var ctx := DirContext(cfg, fs, clock, cfg.processDataUrl + PathName(directory) + "/", Get(analysis.slots, "id"),
                          pool.refillThreshold, DefaultRefill(mint, DataObjectType, pool.poolSize));
    var err, vars := ScanDirectory(db, analysis, pool, mint, regular, ctx, db.dataObjectSet,
                                   DirStart(analysis.slots, pool.Pool(DataObjectType), Cleared));
    if err.Some? {
      return Err(err.value);
    }
    var missing := MissingObject(vars);
    if missing.Some? {
      return Err(missing.value);
    }
    return Ok((vars.config.id, vars.processed));
  }

  /** The loop over the regular files of the directory, from state `s0` with the locals reset. */
  method ScanDirectory(db: Database, analysis: SchemaObject, pool: IDPool, mint: Minter, regular: seq<Nom.DirEntry>,
                       ctx: DirContext, ghost base: seq<Row>, ghost s0: DirRun)
    returns (err: Option<Error>, vars: RowVars)
    requires s0.error.None? && s0.vars == RowVars([], Cleared, Cleared, Cleared)
    requires DirStored(db, analysis, pool, base, s0, ctx)
    requires ctx.threshold == pool.refillThreshold && ctx.refill == DefaultRefill(mint, DataObjectType, pool.poolSize)
    modifies db`dataObjectSet, analysis`slots, pool
    ensures var s := DirScan(s0, Kinded(regular), ctx);
      DirStored(db, analysis, pool, base, s, ctx) && err == s.error && (err.None? ==> vars == s.vars)
    ensures forall u :: u != DataObjectType ==> pool.Pool(u) == old(pool.Pool(u))
  {
    ghost var files := Kinded(regular);
    vars := RowVars([], Cleared, Cleared, Cleared);
    var k := 0;
    while k < |regular|
      invariant 0 <= k <= |regular|
      invariant DirScan(s0, files[..k], ctx).error.None?
      invariant DirStored(db, analysis, pool, base, DirScan(s0, files[..k], ctx), ctx)
      invariant vars == DirScan(s0, files[..k], ctx).vars
      invariant forall u :: u != DataObjectType ==> pool.Pool(u) == old(pool.Pool(u))
    {
      ghost var s := DirScan(s0, files[..k], ctx);
      DirScanNext(s0, files, k, ctx);
      var kind := LcmsKindOf(regular[k]);
      assert files[k] == KindedFile(regular[k], kind);
      err, vars := ClassifyFile(db, analysis, pool, mint, KindedFile(regular[k], kind), ctx, vars, base, s);
      if err.Some? {
        DirScanStops(s0, files, k + 1, ctx);
        return;
      }
      k := k + 1;
    }
    assert files[..k] == files;
    err := None;
  }

  // ---------------------------------------------------------------------
  // What the loop leaves in the three locals
  // ---------------------------------------------------------------------

  /** The local that holds the object of kind `k`. */
  function SlotOf(v: RowVars, k: LcmsKind): Held
    requires Made(k)
  {
    match k
    case Parameters => v.config
    case Annotations => v.annot
    case Hdf5Data => v.hdf5
  }

  predicate HasKind(files: seq<KindedFile>, k: LcmsKind)
  {
    exists i :: 0 <= i < |files| && files[i].kind == k
  }

  /** Once the loop has raised, the exception stays. */
  lemma {:induction false} ErrorStays(s0: DirRun, files: seq<KindedFile>, ctx: DirContext)
    ensures s0.error.Some? ==> DirScan(s0, files, ctx).error == s0.error
  {
    if files != [] {
      ErrorStays(s0, files[..|files| - 1], ctx);
    }
  }

  /** A loop that does not raise saw no file of an unexpected kind. */
  lemma {:induction false} NoUnexpected(s0: DirRun, files: seq<KindedFile>, ctx: DirContext)
    ensures DirScan(s0, files, ctx).error.None? ==>
      s0.error.None? && forall i :: 0 <= i < |files| ==> files[i].kind != Unexpected
  {
    if files != [] {
      var n := |files| - 1;
      NoUnexpected(s0, files[..n], ctx);
      assert forall i :: 0 <= i < n ==> files[..n][i] == files[i];
      ErrorStays(DirScan(s0, files[..n], ctx), [files[n]], ctx);
    }
  }

  /** A step that does not raise fills the local of its file's kind and leaves the others alone. */
  lemma StepSlot(s: DirRun, f: KindedFile, ctx: DirContext, k: LcmsKind)
    requires Made(k)
    ensures var r := DirStep(s, f, ctx);
      r.error.None? ==>
        s.error.None? && (f.kind == k ==> SlotOf(r.vars, k).Holds?)
        && (f.kind != k ==> SlotOf(r.vars, k) == SlotOf(s.vars, k))
  {
  }

  /**
   * After a loop that does not raise, the local of a kind holds an object
   * exactly when a file of that kind was seen, and is as it started when
   * none was.
   */
  lemma {:induction false} SlotAfterScan(s0: DirRun, files: seq<KindedFile>, ctx: DirContext, k: LcmsKind)
    requires Made(k)
    ensures var s := DirScan(s0, files, ctx);
      s.error.None? ==>
        (HasKind(files, k) ==> SlotOf(s.vars, k).Holds?)
        && (!HasKind(files, k) ==> SlotOf(s.vars, k) == SlotOf(s0.vars, k))
  {
    if files != [] {
      var n := |files| - 1;
      var init := files[..n];
      SlotAfterScan(s0, init, ctx, k);
      assert forall i :: 0 <= i < n ==> init[i] == files[i];
      var s := DirScan(s0, init, ctx);
      assert DirScan(s0, files, ctx) == DirStep(s, files[n], ctx);
      StepSlot(s, files[n], ctx, k);
      if DirScan(s0, files, ctx).error.None? {
        if HasKind(files, k) && !HasKind(init, k) {
          var i :| 0 <= i < |files| && files[i].kind == k;
          assert i == n;
        }
        if HasKind(init, k) {
          var i :| 0 <= i < |init| && init[i].kind == k;
          assert files[i].kind == k;
        }
      }
    }
  }

  /**
   * With the locals reset to None, a loop that does not raise returns the
   * objects exactly when all three kinds were seen, and otherwise raises
   * ValueError.
   */
  lemma AllKindsOrValueError(files: seq<KindedFile>, analysis: Row, pool: seq<string>, ctx: DirContext)
    ensures var s := DirScan(DirStart(analysis, pool, Cleared), files, ctx);
      s.error.None? ==>
        (DirOutcome(s).Ok? <==> HasKind(files, Parameters) && HasKind(files, Annotations) && HasKind(files, Hdf5Data))
        && (DirOutcome(s).Err? ==> DirOutcome(s).error.kind == ValueError)
  {
    var s0 := DirStart(analysis, pool, Cleared);
    SlotAfterScan(s0, files, ctx, Parameters);
    SlotAfterScan(s0, files, ctx, Annotations);
    SlotAfterScan(s0, files, ctx, Hdf5Data);
  }

  /**
   * As written, on the first row the locals were never assigned, so a
   * directory without a parameter file raises NameError (UnboundLocalError)
   * rather than the ValueError the check is there to raise.
   */
  lemma FirstRowMissingParametersRaisesNameError(files: seq<KindedFile>, analysis: Row, pool: seq<string>,
                                                 ctx: DirContext)
    requires !HasKind(files, Parameters)
    ensures var s := DirScan(DirStart(analysis, pool, RowStartAsWritten(true)), files, ctx);
      s.error.None? ==> DirOutcome(s) == Err(Error(NameError, ["processed_data_object_config"]))
  {
    SlotAfterScan(DirStart(analysis, pool, RowStartAsWritten(true)), files, ctx, Parameters);
  }

  // ---------------------------------------------------------------------
  // What the loop stores: one pool ID per file with a known kind
  // ---------------------------------------------------------------------

  /** The files that are given a data object, in directory order. */
  function MadeFiles(files: seq<KindedFile>): (made: seq<KindedFile>)
    ensures |made| <= |files|
  {
    if files == [] then []
    else
      var last := files[|files| - 1];
      MadeFiles(files[..|files| - 1]) + if Made(last.kind) then [last] else []
  }

  /** Files paired with their IDs. */
  function Zip(made: seq<KindedFile>, ids: seq<string>): (r: seq<(KindedFile, string)>)
    requires |made| == |ids|
    ensures |r| == |made|
    ensures forall i :: 0 <= i < |r| ==> r[i] == (made[i], ids[i])
  {
    seq(|made|, i requires 0 <= i < |made| => (made[i], ids[i]))
  }

  /** The IDs of the annotation and HDF5 files among `made`, in order. */
  function ListedIds(made: seq<KindedFile>, ids: seq<string>): (r: seq<string>)
    requires |made| == |ids|
    ensures |r| <= |ids|
  {
    if made == [] then []
    else
      var n := |made| - 1;
      ListedIds(made[..n], ids[..n]) + if Listed(made[n].kind) then [ids[n]] else []
  }

  /** The processed IDs are exactly the IDs of the annotation and HDF5 files. */
  lemma {:induction false} ListedMembers(made: seq<KindedFile>, ids: seq<string>)
    requires |made| == |ids|
    ensures forall x :: x in ListedIds(made, ids) <==> exists i :: 0 <= i < |made| && Listed(made[i].kind) && x == ids[i]
  {
    if made != [] {
      var n := |made| - 1;
      ListedMembers(made[..n], ids[..n]);
      assert forall i :: 0 <= i < n ==> made[..n][i] == made[i] && ids[..n][i] == ids[i];
    }
  }

  /** The position of the last file of kind `k`, if there is one. */
  function LastOf(made: seq<KindedFile>, k: LcmsKind): (j: Option<nat>)
    ensures j.None? <==> forall i :: 0 <= i < |made| ==> made[i].kind != k
    ensures j.Some? ==> j.value < |made| && made[j.value].kind == k
                        && forall i :: j.value < i < |made| ==> made[i].kind != k
  {
    if made == [] then None
    else
      var n := |made| - 1;
      if made[n].kind == k then Some(n)
      else
        assert forall i :: 0 <= i < n ==> made[..n][i] == made[i];
        LastOf(made[..n], k)
  }

  /** The local of kind `k` after the files `made` with IDs `ids`: the last such file's ID, or as it was. */
  function SlotAfter(made: seq<KindedFile>, ids: seq<string>, k: LcmsKind, before: Held): Held
    requires |made| == |ids|
  {
    var j := LastOf(made, k);
    if j.Some? then Holds(ids[j.value]) else before
  }

  /** The analysis after the files `made`: the last HDF5 file's times, or as it was. */
  function AnalysisAfter(made: seq<KindedFile>, analysis: Row, clock: FileClock): Row
  {
    var j := LastOf(made, Hdf5Data);
    if j.Some? then Nom.Timed(analysis, Hdf5Times(clock, made[j.value].entry)) else analysis
  }

  /**
   * The run after the loop: the pool and the error are those of `t`, the
   * successive `get_id` calls for the files with a known kind, and when
   * none raised, those files are stored with their IDs in order, the
   * processed list gains the annotation and HDF5 IDs in order, each local
   * holds the last ID of its kind and the analysis the last HDF5 file's times.
   */
  ghost predicate DirShaped(s0: DirRun, s: DirRun, made: seq<KindedFile>, t: Taken, clock: FileClock)
  {
    s.error == t.error && s.objectPool == t.pool
    && (t.error.None? ==>
          |t.ids| == |made|
          && s.stored == s0.stored + Zip(made, t.ids)
          && s.vars.processed == s0.vars.processed + ListedIds(made, t.ids)
          && s.vars.config == SlotAfter(made, t.ids, Parameters, s0.vars.config)
          && s.vars.annot == SlotAfter(made, t.ids, Annotations, s0.vars.annot)
          && s.vars.hdf5 == SlotAfter(made, t.ids, Hdf5Data, s0.vars.hdf5)
          && s.analysis == AnalysisAfter(made, s0.analysis, clock))
  }

  /** A loop over files of known kinds (or none) hands out one pool ID per made file and stores them in order. */
  lemma {:induction false} DirShape(s0: DirRun, files: seq<KindedFile>, ctx: DirContext)
    requires s0.error.None?
    requires forall i :: 0 <= i < |files| ==> files[i].kind != Unexpected
    ensures var made := MadeFiles(files);
      DirShaped(s0, DirScan(s0, files, ctx), made,
                TakeIds(DataObjectType, s0.objectPool, ctx.threshold, ctx.refill, |made|), ctx.clock)
  {
    if files != [] {
      var n := |files| - 1;
      assert forall i :: 0 <= i < n ==> files[..n][i] == files[i];
      DirShape(s0, files[..n], ctx);
      DirShapeStep(s0, files[..n], files[n], ctx);
      assert files == files[..n] + [files[n]];
    }
  }

  /** One more file of a known kind (or none) keeps the run shaped. */
  lemma {:induction false} DirShapeStep(s0: DirRun, init: seq<KindedFile>, f: KindedFile, ctx: DirContext)
    requires s0.error.None? && f.kind != Unexpected
    requires DirShaped(s0, DirScan(s0, init, ctx), MadeFiles(init),
                       TakeIds(DataObjectType, s0.objectPool, ctx.threshold, ctx.refill, |MadeFiles(init)|), ctx.clock)
    ensures var files := init + [f];
      DirShaped(s0, DirScan(s0, files, ctx), MadeFiles(files),
                TakeIds(DataObjectType, s0.objectPool, ctx.threshold, ctx.refill, |MadeFiles(files)|), ctx.clock)
  {
    var s := DirScan(s0, init, ctx);
    DirScanAppend(s0, init, f, ctx);
    MadeFilesAppend(init, f);
    var made := MadeFiles(init);
    if Made(f.kind) {
      assert MadeFiles(init + [f]) == made + [f];
      DirShapeStepMade(s0, s, made, f, ctx);
    } else {
      assert MadeFiles(init + [f]) == made;
      DirStepSkips(s, f, ctx);
    }
  }

  /** A made file takes one more pool ID: the run stays shaped with one more take. */
  lemma {:induction false} DirShapeStepMade(s0: DirRun, s: DirRun, made: seq<KindedFile>, f: KindedFile, ctx: DirContext)
    requires s0.error.None? && Made(f.kind)
    requires DirShaped(s0, s, made, TakeIds(DataObjectType, s0.objectPool, ctx.threshold, ctx.refill, |made|), ctx.clock)
    ensures DirShaped(s0, DirStep(s, f, ctx), made + [f],
                      TakeIds(DataObjectType, s0.objectPool, ctx.threshold, ctx.refill, |made| + 1), ctx.clock)
  {
    var t := TakeIds(DataObjectType, s0.objectPool, ctx.threshold, ctx.refill, |made|);
    var t' := TakeIds(DataObjectType, s0.objectPool, ctx.threshold, ctx.refill, |made| + 1);
    if t.error.Some? {
      assert t' == t by {
        TakeIdsStops(DataObjectType, s0.objectPool, ctx.threshold, ctx.refill, |made|, |made| + 1);
      }
    } else {
      var next := TakeId(DataObjectType, t.pool, ctx.threshold, ctx.refill);
      assert t' == match next.0
                   case Ok(id) => Taken(t.ids + [id], None, next.1)
                   case Err(e) => Taken(t.ids, Some(e), next.1) by {
        assert t == Taken(t.ids, None, t.pool);
        TakeIdsNext(DataObjectType, s0.objectPool, ctx.threshold, ctx.refill, |made|, t.ids, t.pool);
      }
    }
    DirShapedMade(s0, s, made, f, ctx, t, t');
  }

  lemma DirStepSkips(s: DirRun, f: KindedFile, ctx: DirContext)
    requires f.kind != Unexpected && !Made(f.kind)
    ensures DirStep(s, f, ctx) == s
  {
  }

  lemma DirScanAppend(s0: DirRun, init: seq<KindedFile>, f: KindedFile, ctx: DirContext)
    ensures DirScan(s0, init + [f], ctx) == DirStep(DirScan(s0, init, ctx), f, ctx)
  {
    AppendLast(init, f);
  }

  lemma MadeFilesAppend(init: seq<KindedFile>, f: KindedFile)
    ensures MadeFiles(init + [f]) == MadeFiles(init) + if Made(f.kind) then [f] else []
  {
    AppendLast(init, f);
  }

  /** A made file keeps the run shaped: `t'` is `t` with one more take. */
  lemma DirShapedMade(s0: DirRun, s: DirRun, made: seq<KindedFile>, f: KindedFile, ctx: DirContext, t: Taken, t': Taken)
    requires s0.error.None? && Made(f.kind)
    requires DirShaped(s0, s, made, t, ctx.clock)
    requires t.error.Some? ==> t' == t
    requires t.error.None? ==>
      var next := TakeId(DataObjectType, t.pool, ctx.threshold, ctx.refill);
      t' == match next.0
            case Ok(id) => Taken(t.ids + [id], None, next.1)
            case Err(e) => Taken(t.ids, Some(e), next.1)
    ensures DirShaped(s0, DirStep(s, f, ctx), made + [f], t', ctx.clock)
  {
    AppendLast(made, f);
    if t.error.None? {
      var next := TakeId(DataObjectType, t.pool, ctx.threshold, ctx.refill);
      if next.0.Ok? {
        var id := next.0.value;
        var s1 := s.(objectPool := next.1, stored := s.stored + [(f, id)]);
        assert DirStep(s, f, ctx) == Recorded(s1, f, id, ctx);
        assert t' == Taken(t.ids + [id], None, next.1);
        AppendLast(t.ids, id);
        DirShapedStored(s0, s1, made, f, t.ids, id, ctx);
      } else {
        assert DirStep(s, f, ctx) == s.(objectPool := next.1, error := Some(next.0.error));
      }
    }
  }

  /** A made file given the ID `id` is stored and recorded as its kind says. */
  lemma DirShapedStored(s0: DirRun, s: DirRun, made: seq<KindedFile>, f: KindedFile, ids: seq<string>, id: string,
                        ctx: DirContext)
    requires |ids| == |made| && Made(f.kind)
    requires s.stored == s0.stored + Zip(made, ids) + [(f, id)]
    requires s.vars.processed == s0.vars.processed + ListedIds(made, ids)
    requires s.vars.config == SlotAfter(made, ids, Parameters, s0.vars.config)
    requires s.vars.annot == SlotAfter(made, ids, Annotations, s0.vars.annot)
    requires s.vars.hdf5 == SlotAfter(made, ids, Hdf5Data, s0.vars.hdf5)
    requires s.analysis == AnalysisAfter(made, s0.analysis, ctx.clock)
    ensures var r := Recorded(s, f, id, ctx);
      var made', ids' := made + [f], ids + [id];
      r.error == s.error && r.objectPool == s.objectPool
      && r.stored == s0.stored + Zip(made', ids')
      && r.vars.processed == s0.vars.processed + ListedIds(made', ids')
      && r.vars.config == SlotAfter(made', ids', Parameters, s0.vars.config)
      && r.vars.annot == SlotAfter(made', ids', Annotations, s0.vars.annot)
      && r.vars.hdf5 == SlotAfter(made', ids', Hdf5Data, s0.vars.hdf5)
      && r.analysis == AnalysisAfter(made', s0.analysis, ctx.clock)
  {
    AppendLast(made, f);
    AppendLast(ids, id);
    var made', ids' := made + [f], ids + [id];
    assert Zip(made', ids') == Zip(made, ids) + [(f, id)];
    AppendAssoc(s0.stored, Zip(made, ids), [(f, id)]);
    var listed := Listed(f.kind);
    assert ListedIds(made', ids') == ListedIds(made, ids) + if listed then [id] else [];
    AppendAssoc(s0.vars.processed, ListedIds(made, ids), if listed then [id] else []);
    SlotAfterAppend(made, ids, f, id, Parameters, s0.vars.config);
    SlotAfterAppend(made, ids, f, id, Annotations, s0.vars.annot);
    SlotAfterAppend(made, ids, f, id, Hdf5Data, s0.vars.hdf5);
    AnalysisAfterAppend(made, f, s0.analysis, ctx.clock);
  }

  /** One more made file: its kind's local now holds its ID, and the others are as they were. */
  lemma SlotAfterAppend(made: seq<KindedFile>, ids: seq<string>, f: KindedFile, id: string, k: LcmsKind, before: Held)
    requires |made| == |ids|
    ensures SlotAfter(made + [f], ids + [id], k, before)
         == if f.kind == k then Holds(id) else SlotAfter(made, ids, k, before)
  {
    AppendLast(made, f);
    AppendLast(ids, id);
  }

  /** One more made file: an HDF5 file's times replace the earlier ones. */
  lemma AnalysisAfterAppend(made: seq<KindedFile>, f: KindedFile, analysis: Row, clock: FileClock)
    ensures AnalysisAfter(made + [f], analysis, clock)
         == if f.kind == Hdf5Data then Nom.Timed(analysis, Hdf5Times(clock, f.entry)) else AnalysisAfter(made, analysis, clock)
  {
    AppendLast(made, f);
    var j := LastOf(made, Hdf5Data);
    if f.kind == Hdf5Data && j.Some? {
      Nom.TimedTwice(analysis, Hdf5Times(clock, made[j.value].entry), Hdf5Times(clock, f.entry));
    }
  }

  /**
   * When the IDs handed out are distinct, the parameter file's ID is never
   * among the processed IDs.
   */
  lemma ParameterNotListed(made: seq<KindedFile>, ids: seq<string>)
    requires |made| == |ids| && NoDuplicates(ids)
    ensures var j := LastOf(made, Parameters);
      j.Some? ==> ids[j.value] !in ListedIds(made, ids)
  {
    var j := LastOf(made, Parameters);
    ListedMembers(made, ids);
    if j.Some? {
      forall m | 0 <= m < |made| && Listed(made[m].kind) ensures ids[m] != ids[j.value] {
        assert m != j.value;
      }
    }
  }

  /**
   * What a directory that yields its three objects gives back: the files
   * with a known kind took successive pool IDs and were stored in directory
   * order, the processed list is the annotation and HDF5 IDs in that order,
   * and the parameter ID is the parameter file's.
   */
  lemma ProcessedDirectoryShape(files: seq<KindedFile>, analysis: Row, pool: seq<string>, ctx: DirContext)
    ensures var s := DirScan(DirStart(analysis, pool, Cleared), files, ctx);
      var made := MadeFiles(files);
      var t := TakeIds(DataObjectType, pool, ctx.threshold, ctx.refill, |made|);
      DirOutcome(s).Ok? ==>
        t.error.None? && |t.ids| == |made| && s.objectPool == t.pool && s.stored == Zip(made, t.ids)
        && DirOutcome(s).value.1 == ListedIds(made, t.ids)
        && var j := LastOf(made, Parameters);
           j.Some? && DirOutcome(s).value.0 == t.ids[j.value]
  {
    var s0 := DirStart(analysis, pool, Cleared);
    var s := DirScan(s0, files, ctx);
    if DirOutcome(s).Ok? {
      NoUnexpected(s0, files, ctx);
      DirShape(s0, files, ctx);
    }
  }

  // ---------------------------------------------------------------------
  // The end of a row of `run` and of `rerun`
  // ---------------------------------------------------------------------

  /** The analysis inputs: the parameter object, the raw data object, then the configured existing objects. */
  function HasInput(parameterId: string, rawDataId: string, cfg: LcmsSettings): (r: seq<string>)
    ensures |r| == 2 + |cfg.existingDataObjects|
    ensures r[0] == parameterId && r[1] == rawDataId && r[2..] == cfg.existingDataObjects
  {
    [parameterId, rawDataId] + cfg.existingDataObjects
  }

  /**
   * The end of a row of `run`: the outputs are set as `update_outputs`
   * sets them (the mass spectrometry record outputs the raw data, the
   * analysis takes the inputs and the processed outputs), then the mass
   * spectrometry record, the raw data object and the analysis are appended.
   */
  method FinishRunRow(db: Database, analysis: SchemaObject, massSpec: SchemaObject, rawDataObject: Row,
                      parameterId: string, processed: seq<string>, cfg: LcmsSettings)
    returns (err: Option<Error>)
    requires massSpec != analysis
    modifies analysis, massSpec, db`dataGenerationSet, db`dataObjectSet, db`workflowExecutionSet
    ensures err == None
    ensures massSpec.slots == old(massSpec.slots)["has_output" := List([Str(RecordId(rawDataObject))])]
    ensures analysis.slots == old(analysis.slots)
      ["has_input" := StringList(HasInput(parameterId, RecordId(rawDataObject), cfg))]["has_output" := StringList(processed)]
    ensures db.dataGenerationSet == old(db.dataGenerationSet) + [massSpec.slots]
    ensures db.dataObjectSet == old(db.dataObjectSet) + [rawDataObject]
    ensures db.workflowExecutionSet == old(db.workflowExecutionSet) + [analysis.slots]
  {
    var rawId := RecordId(rawDataObject);
    err := UpdateOutputs(analysis, rawId, StringList(HasInput(parameterId, rawId, cfg)), processed, massSpec, false);
    db.dataGenerationSet := db.dataGenerationSet + [massSpec.slots];
    db.dataObjectSet := db.dataObjectSet + [rawDataObject];
    db.workflowExecutionSet := db.workflowExecutionSet + [analysis.slots];
  }

  /**
   * The end of a row of `rerun`: `update_outputs` with `rerun` set and no
   * mass spectrometry record, so only the analysis changes, and only the
   * analysis is appended.
   */
  method FinishRerunRow(db: Database, analysis: SchemaObject, rawDataId: string, parameterId: string,
                        processed: seq<string>, cfg: LcmsSettings)
    returns (err: Option<Error>)
    modifies analysis, db`workflowExecutionSet
    ensures err == None
    ensures analysis.slots == old(analysis.slots)
      ["has_input" := StringList(HasInput(parameterId, rawDataId, cfg))]["has_output" := StringList(processed)]
    ensures db.workflowExecutionSet == old(db.workflowExecutionSet) + [analysis.slots]
  {
    err := UpdateOutputs(analysis, rawDataId, StringList(HasInput(parameterId, rawDataId, cfg)), processed, null, true);
    db.workflowExecutionSet := db.workflowExecutionSet + [analysis.slots];
  }
}
