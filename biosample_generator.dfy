/**
 * `BiosampleGenerator`: biosample records for the rows of a metadata frame
 * that name a biosample without giving its ID, minted once per biosample
 * name, with the new ID written back into every row of that name; and the
 * lookup of the ontology API key the row parser needs.
 */
module BiosampleGenerator {
  import opened Common
  import opened Frames
  import opened IdPool
  import opened MetadataGenerator

  const BiosampleType: string := "nmdc:Biosample"
  const NameColumn: string := "biosample.name"
  const IdColumn: string := "biosample_id"
  const ApiKeyName: string := "BIO_API_KEY"

  /** The columns a row needs before a biosample can be generated for it, in the order they are reported. */
  const RequiredColumns: seq<string> :=
    ["biosample.name", "biosample.associated_studies", "biosample.env_broad_scale",
     "biosample.env_local_scale", "biosample.env_medium"]

  /** `dynam_parse_biosample_metadata` with the API key bound: a row to the biosample's keyword dictionary. */
  type BiosampleParser = Row -> Row

  // ---------------------------------------------------------------------
  // generate_biosample
  // ---------------------------------------------------------------------

  /**
   * The biosample's dictionary: the parsed metadata with `id` set, cleaned
   * of blank values, and the provenance added.
   */
  function BiosampleDict(metadata: Row, id: Value, provenance: Value): (r: Row)
    ensures "provenance_metadata" in r && r["provenance_metadata"] == provenance
    ensures !Blank(id) ==> "id" in r && r["id"] == id
    ensures forall k :: k != "id" && k != "provenance_metadata" ==>
      (k in r <==> k in metadata && !Blank(metadata[k])) && (k in r ==> r[k] == metadata[k])
  {
    CleanDict(metadata["id" := id])["provenance_metadata" := provenance]
  }

  /**
   * `generate_biosample` on the Biosample pool `pool`: KeyError when the
   * metadata has no `id` entry; its ID when it gives one (the pool is not
   * touched); otherwise the next ID of the pool, or the pool's error.
   */
  function BiosampleFromPool(metadata: Row, provenance: Value, pool: seq<string>, threshold: nat, refill: Refill)
    : (r: (Result<Row>, seq<string>))
    ensures "id" !in metadata ==> r == (Err(Error(KeyError, ["id"])), pool)
    ensures "id" in metadata && metadata["id"] != Null ==> r.1 == pool && r.0.Ok?
    ensures r.0.Ok? ==> BiosampleOf(r.0.value, metadata, provenance)
  {
    if "id" !in metadata then (Err(Error(KeyError, ["id"])), pool)
    else if metadata["id"] != Null then (Ok(BiosampleDict(metadata, metadata["id"], provenance)), pool)
    else
      var (id, rest) := TakeId(BiosampleType, pool, threshold, refill);
      if id.Err? then (Err(id.error), rest)
      else (Ok(BiosampleDict(metadata, Str(id.value), provenance)), rest)
  }

  /**
   * `record` is a biosample built from `metadata`: the given ID when there
   * is one, a (string) minted one when it is None, and every other
   * non-blank entry of the metadata plus the provenance.
   */
  predicate BiosampleOf(record: Row, metadata: Row, provenance: Value)
  {
    "id" in metadata
    && var id := if metadata["id"] == Null then Get(record, "id") else metadata["id"];
       record == BiosampleDict(metadata, id, provenance) && (metadata["id"] == Null ==> id.Str?)
  }

  /**
   * A biosample built from metadata that gives a non-blank ID carries that
   * ID and its provenance, and the pool is left as it was.
   */
  lemma GivenIdKept(metadata: Row, provenance: Value, pool: seq<string>, threshold: nat, refill: Refill)
    requires "id" in metadata && metadata["id"] != Null && metadata["id"] != Str("")
    ensures var r := BiosampleFromPool(metadata, provenance, pool, threshold, refill);
      r.0.Ok? && r.1 == pool && Get(r.0.value, "id") == metadata["id"]
      && Get(r.0.value, "provenance_metadata") == provenance
  {
  }

  /**
   * A biosample whose metadata gives no ID gets the last ID of the
   * (refilled) pool, which no longer holds it.
   */
  lemma MintedIdTaken(metadata: Row, provenance: Value, pool: seq<string>, threshold: nat, refill: Refill)
    requires "id" in metadata && metadata["id"] == Null
    requires |pool| > threshold || refill.batch.Ok?
    requires NoDuplicates(PoolAfterRefill(pool, threshold, refill))
    ensures var r := BiosampleFromPool(metadata, provenance, pool, threshold, refill);
      var p := PoolAfterRefill(pool, threshold, refill);
      r.0.Ok? ==> p != [] && Get(r.0.value, "id") == Str(p[|p| - 1]) && p[|p| - 1] !in r.1
  {
    TakeIdRemovesId(BiosampleType, pool, threshold, refill);
  }

  /**
   * `generate_biosample`: the ID is minted from the Biosample pool only when
   * the metadata's `id` is None, and no other type's pool changes.
   */
  method GenerateBiosample(pool: IDPool, mint: Minter, metadata: Row, provenance: Value) returns (r: Result<Row>)
    modifies pool
    ensures (r, pool.Pool(BiosampleType))
            == BiosampleFromPool(metadata, provenance, old(pool.Pool(BiosampleType)), pool.refillThreshold,
                                 DefaultRefill(mint, BiosampleType, pool.poolSize))
    ensures !("id" in metadata && metadata["id"] == Null) ==> pool.pools == old(pool.pools)
    ensures forall u :: u != BiosampleType ==> pool.Pool(u) == old(pool.Pool(u))
  {
    if "id" !in metadata {
      return Err(Error(KeyError, ["id"]));
    }
    var id := metadata["id"];
    if id == Null {
      var minted, refilled := pool.GetId(BiosampleType, mint);
      if minted.Err? {
        return Err(minted.error);
      }
      id := Str(minted.value);
    }
    r := Ok(BiosampleDict(metadata, id, provenance));
  }

  // ---------------------------------------------------------------------
  // check_biosample_rows
  // ---------------------------------------------------------------------

  /** The biosample names of the frame's rows that hold a string, in row order. */
  function StringNames(rows: seq<Row>): (names: seq<string>)
    ensures forall n :: n in names <==> exists i :: 0 <= i < |rows| && Get(rows[i], NameColumn) == Str(n)
  {
    if rows == [] then []
    else
      var rest := StringNames(rows[1..]);
      assert forall i :: 0 < i < |rows| ==> rows[i] == rows[1..][i - 1];
      assert forall n :: (exists i :: 0 <= i < |rows[1..]| && Get(rows[1..][i], NameColumn) == Str(n)) ==>
                         exists i :: 0 <= i < |rows| && Get(rows[i], NameColumn) == Str(n);
      match Get(rows[0], NameColumn)
      case Str(n) => [n] + rest
      case _ => rest
  }

  /**
   * The keys of `groupby("biosample.name")`: each distinct name once, sorted;
   * rows without a name belong to no group.
   */
  function GroupNames(t: Table): (names: seq<string>)
    ensures LexSorted(names) && NoDuplicates(names)
    ensures forall n :: n in names <==> n in StringNames(t.rows)
  {
    var distinct := Dedup(StringNames(t.rows));
    var names := SortStrings(distinct);
    NoDuplicatesPermutation(distinct, names);
    assert forall n :: n in names <==> n in StringNames(t.rows) by {
      forall n ensures n in names <==> n in StringNames(t.rows) {
        assert n in names <==> n in multiset(names);
        assert n in distinct <==> n in multiset(distinct);
      }
    }
    names
  }

  /** `group.iloc[0]`: the first row with the given name (an empty row if there is none). */
  function FirstRow(rows: seq<Row>, name: string): (r: Row)
  {
    if rows == [] then map[]
    else if Get(rows[0], NameColumn) == Str(name) then rows[0]
    else FirstRow(rows[1..], name)
  }

  /** The first row of a name is a row of that name, and no earlier row has the name. */
  lemma {:induction false} FirstRowIsFirst(rows: seq<Row>, name: string, i: nat)
    requires i < |rows| && Get(rows[i], NameColumn) == Str(name)
    ensures exists j :: 0 <= j <= i && FirstRow(rows, name) == rows[j] && Get(rows[j], NameColumn) == Str(name)
                        && forall m :: 0 <= m < j ==> Get(rows[m], NameColumn) != Str(name)
  {
    if Get(rows[0], NameColumn) == Str(name) {
      assert FirstRow(rows, name) == rows[0];
    } else {
      assert rows[1..][i - 1] == rows[i];
      FirstRowIsFirst(rows[1..], name, i - 1);
      var j :| 0 <= j <= i - 1 && FirstRow(rows[1..], name) == rows[1..][j] && Get(rows[1..][j], NameColumn) == Str(name)
                && forall m :: 0 <= m < j ==> Get(rows[1..][m], NameColumn) != Str(name);
      assert forall m :: 1 <= m < j + 1 ==> rows[m] == rows[1..][m - 1];
    }
  }

  /** The inputs of the loop over the groups: the frame as grouped, the parser, and the pool's settings. */
  datatype BiosampleContext = BiosampleContext(frame: Table, parse: BiosampleParser, provenance: Value,
                                               threshold: nat, refill: Refill)

  /** The state of the loop: the frame, the biosamples appended, the Biosample pool, and the error raised. */
  datatype BiosampleRun = BiosampleRun(table: Table, biosamples: seq<Row>, pool: seq<string>, error: Option<Error>)

  /** Whether the first row of a name's group already gives a biosample ID. */
  predicate HasBiosampleId(row: Row)
  {
    !IsNull(Get(row, IdColumn))
  }

  /**
   * The loop body for one group: nothing when the first row has an ID;
   * otherwise ValueError naming the missing required columns, or the
   * generated biosample appended and its ID written into the name's rows.
   */
  function BiosampleStep(s: BiosampleRun, name: string, ctx: BiosampleContext): BiosampleRun
  {
    if s.error.Some? then s
    else
      var row := FirstRow(ctx.frame.rows, name);
      if HasBiosampleId(row) then s
      else
        var missing := MissingFrom(RequiredColumns, s.table.columns);
        if missing != [] then s.(error := Some(Error(ValueError, missing)))
        else
          var (biosample, pool) := BiosampleFromPool(ctx.parse(row), ctx.provenance, s.pool, ctx.threshold,
                                                     ctx.refill);
          match biosample
          case Err(e) => s.(pool := pool, error := Some(e))
          case Ok(b) =>
            BiosampleRun(AssignWhere(s.table, NameColumn, name, IdColumn, Get(b, "id")), s.biosamples + [b], pool,
                         None)
  }

  /** The loop over the first groups, from state `s0`. */
  function BiosamplesFor(s0: BiosampleRun, names: seq<string>, ctx: BiosampleContext): BiosampleRun
  {
    if names == [] then s0
    else BiosampleStep(BiosamplesFor(s0, names[..|names| - 1], ctx), names[|names| - 1], ctx)
  }

  /** Once a group has raised, the remaining groups change nothing. */
  lemma {:induction false} BiosamplesStop(s0: BiosampleRun, names: seq<string>, k: nat, ctx: BiosampleContext)
    requires k <= |names| && BiosamplesFor(s0, names[..k], ctx).error.Some?
    ensures BiosamplesFor(s0, names, ctx) == BiosamplesFor(s0, names[..k], ctx)
    decreases |names| - k
  {
    if k < |names| {
      assert names[..k + 1][..k] == names[..k];
      BiosamplesStop(s0, names, k + 1, ctx);
    } else {
      assert names[..k] == names;
    }
  }

  /** The names whose group gets a new biosample: those whose first row has no ID, in group order. */
  function Pending(frame: Table, names: seq<string>): (pending: seq<string>)
    ensures |pending| <= |names|
  {
    if names == [] then []
    else
      var n := names[|names| - 1];
      Pending(frame, names[..|names| - 1]) + if HasBiosampleId(FirstRow(frame.rows, n)) then [] else [n]
  }

  /** The pending names are the names whose first row has no biosample ID. */
  lemma {:induction false} PendingMembers(frame: Table, names: seq<string>)
    ensures forall n :: n in Pending(frame, names) <==> n in names && !HasBiosampleId(FirstRow(frame.rows, n))
  {
    if names != [] {
      var m := names[|names| - 1];
      PendingMembers(frame, names[..|names| - 1]);
      assert names == names[..|names| - 1] + [m];
    }
  }

  lemma {:induction false} PendingDistinct(frame: Table, names: seq<string>)
    requires NoDuplicates(names)
    ensures NoDuplicates(Pending(frame, names))
  {
    if names != [] {
      var n := names[|names| - 1];
      NoDuplicatesPrefix(names, |names| - 1);
      PendingDistinct(frame, names[..|names| - 1]);
      PendingMembers(frame, names[..|names| - 1]);
      assert n !in names[..|names| - 1];
    }
  }

  /**
   * Row `now` of a finished run, from row `orig` of the frame it started
   * with: only the ID column changes; a row of a pending name holds the ID of
   * that name's biosample, and any other row keeps its ID (NaN when the
   * column was created by the run).
   */
  ghost predicate RowLinked(orig: Row, now: Row, pending: seq<string>, biosamples: seq<Row>, hadColumn: bool)
  {
    (forall c :: c != IdColumn ==> Get(now, c) == Get(orig, c))
    && (forall k :: 0 <= k < |pending| && k < |biosamples| && Get(orig, NameColumn) == Str(pending[k]) ==>
          Get(now, IdColumn) == Get(biosamples[k], "id"))
    && ((forall k :: 0 <= k < |pending| ==> Get(orig, NameColumn) != Str(pending[k])) ==>
          Get(now, IdColumn) == if hadColumn || biosamples == [] then Get(orig, IdColumn) else NaN)
  }

  /** The parsed first row of a name's group. */
  function MetadataOf(ctx: BiosampleContext, name: string): Row
  {
    ctx.parse(FirstRow(ctx.frame.rows, name))
  }

  /** Biosample `k` is built from the metadata of pending name `k`, for every `k`. */
  ghost predicate BuiltFrom(biosamples: seq<Row>, pending: seq<string>, ctx: BiosampleContext)
  {
    |biosamples| == |pending|
    && forall k :: 0 <= k < |pending| ==> BiosampleOf(biosamples[k], MetadataOf(ctx, pending[k]), ctx.provenance)
  }

  lemma BuiltFromAppend(biosamples: seq<Row>, pending: seq<string>, ctx: BiosampleContext, b: Row, name: string)
    requires BuiltFrom(biosamples, pending, ctx)
    requires BiosampleOf(b, MetadataOf(ctx, name), ctx.provenance)
    ensures BuiltFrom(biosamples + [b], pending + [name], ctx)
  {
    var bs, ps := biosamples + [b], pending + [name];
    forall k | 0 <= k < |ps| ensures BiosampleOf(bs[k], MetadataOf(ctx, ps[k]), ctx.provenance) {
      if k < |pending| {
        assert bs[k] == biosamples[k] && ps[k] == pending[k];
      }
    }
  }

  /**
   * A run from `s0` that ended without an error after generating a
   * biosample for each name of `pending`: the biosamples are built from
   * their names' metadata, and every row is linked to its name's biosample.
   */
  ghost predicate Linked(s0: BiosampleRun, pending: seq<string>, ctx: BiosampleContext, r: BiosampleRun)
  {
    var hadColumn := IdColumn in s0.table.columns;
    BuiltFrom(r.biosamples, pending, ctx) && |r.table.rows| == |s0.table.rows|
    && (forall c :: c != IdColumn ==> (c in r.table.columns <==> c in s0.table.columns))
    && (IdColumn in r.table.columns <==> hadColumn || pending != [])
    && forall i :: 0 <= i < |s0.table.rows| ==>
         RowLinked(s0.table.rows[i], r.table.rows[i], pending, r.biosamples, hadColumn)
  }

  /**
   * `r` is `s` after a step on `name` that generated a biosample: the
   * biosample built from the parsed first row appended, and its ID written
   * into the rows of the name.
   */
  ghost predicate Generated(s: BiosampleRun, name: string, ctx: BiosampleContext, r: BiosampleRun)
  {
    var row := FirstRow(ctx.frame.rows, name);
    !HasBiosampleId(row)
    && |r.biosamples| == |s.biosamples| + 1 && r.biosamples[..|s.biosamples|] == s.biosamples
    && BiosampleOf(r.biosamples[|s.biosamples|], MetadataOf(ctx, name), ctx.provenance)
    && r.table == AssignWhere(s.table, NameColumn, name, IdColumn, Get(r.biosamples[|s.biosamples|], "id"))
  }

  /**
   * A step that ends without an error started without one, and either left
   * the run as it was (the group has an ID) or generated one biosample.
   */
  lemma StepOk(s: BiosampleRun, name: string, ctx: BiosampleContext)
    requires BiosampleStep(s, name, ctx).error.None?
    ensures s.error.None?
    ensures var r := BiosampleStep(s, name, ctx);
      if HasBiosampleId(FirstRow(ctx.frame.rows, name)) then r == s else Generated(s, name, ctx, r)
  {
  }

  /** One row through a generating step: a row of the step's name gets the new ID, and no other row changes. */
  lemma RowLinkedStep(orig: Row, before: Row, after: Row, pending: seq<string>, biosamples: seq<Row>,
                      hadColumn: bool, hasColumn: bool)
    requires |pending| > 0 && |biosamples| == |pending| && NoDuplicates(pending)
    requires RowLinked(orig, before, pending[..|pending| - 1], biosamples[..|pending| - 1], hadColumn)
    requires hasColumn <==> hadColumn || |pending| > 1
    requires var id := Get(biosamples[|pending| - 1], "id");
      after == if Get(before, NameColumn) == Str(pending[|pending| - 1]) then before[IdColumn := id]
               else if hasColumn then before else before[IdColumn := NaN]
    ensures RowLinked(orig, after, pending, biosamples, hadColumn)
  {
    var n := |pending| - 1;
    forall k | 0 <= k < |pending| && Get(orig, NameColumn) == Str(pending[k])
      ensures Get(after, IdColumn) == Get(biosamples[k], "id")
    {
      if k < n {
        assert pending[k] != pending[n];
        assert pending[..n][k] == pending[k] && biosamples[..n][k] == biosamples[k];
      }
    }
    if forall k :: 0 <= k < |pending| ==> Get(orig, NameColumn) != Str(pending[k]) {
      assert forall k :: 0 <= k < n ==> pending[..n][k] == pending[k];
    }
  }

  /** A linked run stays linked through a step that generates a biosample for a new name. */
  lemma LinkedStep(s0: BiosampleRun, pending: seq<string>, name: string, ctx: BiosampleContext, prev: BiosampleRun,
                   r: BiosampleRun)
    requires NoDuplicates(pending + [name])
    requires Linked(s0, pending, ctx, prev)
    requires Generated(prev, name, ctx, r)
    ensures Linked(s0, pending + [name], ctx, r)
  {
    var ps := pending + [name];
    var b := r.biosamples[|prev.biosamples|];
    assert r.biosamples == prev.biosamples + [b];
    BuiltFromAppend(prev.biosamples, pending, ctx, b, name);
    assert ps[..|ps| - 1] == pending;
    var id := Get(b, "id");
    var t := prev.table;
    forall c | c != IdColumn ensures c in r.table.columns <==> c in s0.table.columns {
      AssignWhereKeepsColumn(t, NameColumn, name, IdColumn, id, c);
    }
    forall i | 0 <= i < |s0.table.rows|
      ensures RowLinked(s0.table.rows[i], r.table.rows[i], ps, r.biosamples, IdColumn in s0.table.columns)
    {
      RowLinkedStep(s0.table.rows[i], t.rows[i], r.table.rows[i], ps, r.biosamples,
                    IdColumn in s0.table.columns, IdColumn in t.columns);
    }
  }

  /** A run that has not started is linked with no names. */
  lemma LinkedStart(s0: BiosampleRun, ctx: BiosampleContext)
    requires s0.biosamples == []
    ensures Linked(s0, [], ctx, s0)
  {
    forall i | 0 <= i < |s0.table.rows|
      ensures RowLinked(s0.table.rows[i], s0.table.rows[i], [], [], IdColumn in s0.table.columns)
    {
    }
  }

  /**
   * A run over distinct names that ends without an error: one biosample
   * per pending name, and the rows linked as `Linked` says.
   */
  lemma {:induction false} BiosamplesLinked(s0: BiosampleRun, names: seq<string>, ctx: BiosampleContext)
    requires s0.error.None? && s0.biosamples == []
    requires NoDuplicates(names)
    ensures var r := BiosamplesFor(s0, names, ctx);
      r.error.None? ==> Linked(s0, Pending(ctx.frame, names), ctx, r)
    decreases |names|
  {
    var r := BiosamplesFor(s0, names, ctx);
    if r.error.Some? {
      return;
    }
    if names == [] {
      LinkedStart(s0, ctx);
      return;
    }
    var n := |names| - 1;
    var prev := BiosamplesFor(s0, names[..n], ctx);
    assert r == BiosampleStep(prev, names[n], ctx);
    StepOk(prev, names[n], ctx);
    NoDuplicatesPrefix(names, n);
    BiosamplesLinked(s0, names[..n], ctx);
    LinkedNext(s0, names, ctx, prev);
  }

  /** The step for the last name keeps the run linked, whether it generates a biosample or not. */
  lemma LinkedNext(s0: BiosampleRun, names: seq<string>, ctx: BiosampleContext, prev: BiosampleRun)
    requires |names| > 0 && NoDuplicates(names)
    requires BiosampleStep(prev, names[|names| - 1], ctx).error.None?
    requires Linked(s0, Pending(ctx.frame, names[..|names| - 1]), ctx, prev)
    ensures Linked(s0, Pending(ctx.frame, names), ctx, BiosampleStep(prev, names[|names| - 1], ctx))
  {
    var n := |names| - 1;
    StepOk(prev, names[n], ctx);
    if HasBiosampleId(FirstRow(ctx.frame.rows, names[n])) {
      assert Pending(ctx.frame, names) == Pending(ctx.frame, names[..n]) + [] == Pending(ctx.frame, names[..n]);
    } else {
      LinkedGenerated(s0, names, ctx, prev, BiosampleStep(prev, names[n], ctx));
    }
  }

  /** A step on a new name without an ID extends the pending names by that name. */
  lemma LinkedGenerated(s0: BiosampleRun, names: seq<string>, ctx: BiosampleContext, prev: BiosampleRun,
                        r: BiosampleRun)
    requires |names| > 0 && NoDuplicates(names)
    requires !HasBiosampleId(FirstRow(ctx.frame.rows, names[|names| - 1]))
    requires Generated(prev, names[|names| - 1], ctx, r)
    requires Linked(s0, Pending(ctx.frame, names[..|names| - 1]), ctx, prev)
    ensures Linked(s0, Pending(ctx.frame, names), ctx, r)
  {
    var n := |names| - 1;
    var pending0 := Pending(ctx.frame, names[..n]);
    assert Pending(ctx.frame, names) == pending0 + [names[n]];
    PendingDistinct(ctx.frame, names);
    LinkedStep(s0, pending0, names[n], ctx, prev, r);
  }

  /**
   * When the frame lacks a required column, the first group whose first
   * row has no ID raises ValueError naming the missing columns, before any
   * biosample is generated or any ID is minted; groups that have an ID
   * change nothing.
   */
  lemma {:induction false} MissingColumnStopsRun(s0: BiosampleRun, names: seq<string>, ctx: BiosampleContext)
    requires s0.error.None? && MissingFrom(RequiredColumns, s0.table.columns) != []
    ensures var r := BiosamplesFor(s0, names, ctx);
      r.biosamples == s0.biosamples && r.table == s0.table && r.pool == s0.pool
      && r.error == if Pending(ctx.frame, names) == [] then None
                    else Some(Error(ValueError, MissingFrom(RequiredColumns, s0.table.columns)))
  {
    if names != [] {
      MissingColumnStopsRun(s0, names[..|names| - 1], ctx);
    }
  }

  /** Every row's `biosample.name` is a string or missing (None or NaN). */
  predicate NamesAreStrings(t: Table)
  {
    forall i :: 0 <= i < |t.rows| ==> Get(t.rows[i], NameColumn).Str? || IsNull(Get(t.rows[i], NameColumn))
  }

  /** The run `check_biosample_rows` starts from: the frame as given, no biosamples, the Biosample pool. */
  function StartRun(t: Table, pool: seq<string>): BiosampleRun
  {
    BiosampleRun(t, [], pool, None)
  }

  /**
   * `check_biosample_rows` on a frame that held `t0`, for groups with
   * distinct names: on success, every row of a group whose first row had no
   * ID holds the ID of the one biosample generated for that group, built
   * from the group's parsed first row; every row of a group that had an ID
   * keeps it; and exactly one biosample was generated per such group.
   */
  lemma CheckedRowsLinked(t0: Table, ctx: BiosampleContext, pool0: seq<string>, names: seq<string>,
                          r: BiosampleRun, i: nat, n: string)
    requires ctx.frame == t0 && WellFormed(t0) && names == GroupNames(t0)
    requires r == BiosamplesFor(StartRun(t0, pool0), names, ctx) && r.error.None?
    requires i < |t0.rows| && Get(t0.rows[i], NameColumn) == Str(n)
    ensures n in names && |r.table.rows| == |t0.rows|
    ensures |r.biosamples| == |Pending(t0, names)| && NoDuplicates(Pending(t0, names))
    ensures !HasBiosampleId(FirstRow(t0.rows, n)) ==>
      exists k :: 0 <= k < |r.biosamples| && Pending(t0, names)[k] == n
                  && Get(r.table.rows[i], IdColumn) == Get(r.biosamples[k], "id")
                  && BiosampleOf(r.biosamples[k], MetadataOf(ctx, n), ctx.provenance)
    ensures HasBiosampleId(FirstRow(t0.rows, n)) ==> Get(r.table.rows[i], IdColumn) == Get(t0.rows[i], IdColumn)
  {
    BiosamplesLinked(StartRun(t0, pool0), names, ctx);
    PendingDistinct(t0, names);
    assert n in StringNames(t0.rows);
    LinkedRow(t0, ctx, pool0, names, r, i, n);
  }

  /** The row-level reading of `Linked` for one named row of the frame. */
  lemma LinkedRow(t0: Table, ctx: BiosampleContext, pool0: seq<string>, names: seq<string>,
                  r: BiosampleRun, i: nat, n: string)
    requires ctx.frame == t0 && WellFormed(t0)
    requires Linked(StartRun(t0, pool0), Pending(t0, names), ctx, r)
    requires i < |t0.rows| && Get(t0.rows[i], NameColumn) == Str(n)
    ensures |r.table.rows| == |t0.rows| && |r.biosamples| == |Pending(t0, names)|
    ensures !HasBiosampleId(FirstRow(t0.rows, n)) && n in names ==>
      exists k :: 0 <= k < |r.biosamples| && Pending(t0, names)[k] == n
                  && Get(r.table.rows[i], IdColumn) == Get(r.biosamples[k], "id")
                  && BiosampleOf(r.biosamples[k], MetadataOf(ctx, n), ctx.provenance)
    ensures HasBiosampleId(FirstRow(t0.rows, n)) ==> Get(r.table.rows[i], IdColumn) == Get(t0.rows[i], IdColumn)
  {
    var pending := Pending(t0, names);
    PendingMembers(t0, names);
    assert RowLinked(t0.rows[i], r.table.rows[i], pending, r.biosamples, IdColumn in t0.columns);
    if !HasBiosampleId(FirstRow(t0.rows, n)) && n in names {
      assert n in pending;
      var k :| 0 <= k < |pending| && pending[k] == n;
      assert BuiltFrom(r.biosamples, pending, ctx);
    } else if HasBiosampleId(FirstRow(t0.rows, n)) {
      FirstRowIsFirst(t0.rows, n, i);
      var j :| 0 <= j <= i && FirstRow(t0.rows, n) == t0.rows[j];
      assert IdColumn in t0.rows[j].Keys;
      assert n !in pending;
      forall k | 0 <= k < |pending| ensures Get(t0.rows[i], NameColumn) != Str(pending[k]) {
        assert pending[k] in pending;
      }
    }
  }

  /** The frame, database and pool hold state `s` of a run that started with the biosamples `biosamples0`. */
  ghost predicate InRun(df: DataFrame, db: Database, pool: IDPool, biosamples0: seq<Row>, s: BiosampleRun)
    reads df, db, pool
  {
    df.table == s.table && db.biosampleSet == biosamples0 + s.biosamples && pool.Pool(BiosampleType) == s.pool
  }

  /** The loop's context for a frame, a parser and a pool. */
  function ContextOf(t: Table, parse: BiosampleParser, provenance: Value, pool: IDPool, mint: Minter)
    : BiosampleContext
  {
    BiosampleContext(t, parse, provenance, pool.refillThreshold, DefaultRefill(mint, BiosampleType, pool.poolSize))
  }

  /** The body of the `check_biosample_rows` loop for the group of `name`. */
  method CheckGroup(df: DataFrame, db: Database, pool: IDPool, mint: Minter, ctx: BiosampleContext, name: string,
                    ghost s: BiosampleRun, ghost biosamples0: seq<Row>)
    returns (err: Option<Error>)
    requires s.error.None? && InRun(df, db, pool, biosamples0, s)
    requires ctx.threshold == pool.refillThreshold && ctx.refill == DefaultRefill(mint, BiosampleType, pool.poolSize)
    modifies df`table, db`biosampleSet, pool
    ensures var r := BiosampleStep(s, name, ctx);
      InRun(df, db, pool, biosamples0, r) && err == r.error
    ensures forall u :: u != BiosampleType ==> pool.Pool(u) == old(pool.Pool(u))
  {
    var row := FirstRow(ctx.frame.rows, name);
    if HasBiosampleId(row) {
      return None;
    }
    var missing := MissingFrom(RequiredColumns, df.table.columns);
    if missing != [] {
      return Some(Error(ValueError, missing));
    }
    var biosample := GenerateBiosample(pool, mint, ctx.parse(row), ctx.provenance);
    if biosample.Err? {
      return Some(biosample.error);
    }
    df.table := AssignWhere(df.table, NameColumn, name, IdColumn, Get(biosample.value, "id"));
    db.biosampleSet := db.biosampleSet + [biosample.value];
    return None;
  }

  /**
   * `check_biosample_rows`: ValueError without a `biosample.name` column;
   * otherwise the loop over the groups in sorted name order, which stops at
   * the first error and keeps what it did before it.
   */
  method CheckBiosampleRows(df: DataFrame, db: Database, pool: IDPool, mint: Minter, parse: BiosampleParser,
                            provenance: Value)
    returns (err: Option<Error>)
    requires NamesAreStrings(df.table)
    modifies df`table, db`biosampleSet, pool
    ensures NameColumn !in old(df.table.columns) ==>
      err == Some(Error(ValueError, [NameColumn])) && df.table == old(df.table)
      && db.biosampleSet == old(db.biosampleSet) && pool.pools == old(pool.pools)
    ensures NameColumn in old(df.table.columns) ==>
      var r := BiosamplesFor(StartRun(old(df.table), old(pool.Pool(BiosampleType))), GroupNames(old(df.table)),
                             ContextOf(old(df.table), parse, provenance, pool, mint));
      InRun(df, db, pool, old(db.biosampleSet), r) && err == r.error
    ensures forall u :: u != BiosampleType ==> pool.Pool(u) == old(pool.Pool(u))
  {
    if NameColumn !in df.table.columns {
      return Some(Error(ValueError, [NameColumn]));
    }
    var names := GroupNames(df.table);
    var ctx := ContextOf(df.table, parse, provenance, pool, mint);
    err := CheckGroups(df, db, pool, mint, ctx, names, StartRun(df.table, pool.Pool(BiosampleType)), db.biosampleSet);
  }

  /** The `check_biosample_rows` loop over `names`, from state `s0`. */
  method CheckGroups(df: DataFrame, db: Database, pool: IDPool, mint: Minter, ctx: BiosampleContext,
                     names: seq<string>, ghost s0: BiosampleRun, ghost biosamples0: seq<Row>)
    returns (err: Option<Error>)
    requires s0.error.None? && InRun(df, db, pool, biosamples0, s0)
    requires ctx.threshold == pool.refillThreshold && ctx.refill == DefaultRefill(mint, BiosampleType, pool.poolSize)
    modifies df`table, db`biosampleSet, pool
    ensures var r := BiosamplesFor(s0, names, ctx);
      InRun(df, db, pool, biosamples0, r) && err == r.error
    ensures forall u :: u != BiosampleType ==> pool.Pool(u) == old(pool.Pool(u))
  {
    assert names[..0] == [];
    err := None;
    var k := 0;
    while k < |names| && err.None?
      invariant 0 <= k <= |names|
      invariant InRun(df, db, pool, biosamples0, BiosamplesFor(s0, names[..k], ctx))
      invariant err == BiosamplesFor(s0, names[..k], ctx).error
      invariant forall u :: u != BiosampleType ==> pool.Pool(u) == old(pool.Pool(u))
    {
      assert names[..k + 1][..k] == names[..k];
      err := CheckGroup(df, db, pool, mint, ctx, names[k], BiosamplesFor(s0, names[..k], ctx), biosamples0);
      k := k + 1;
    }
    if err.Some? {
      BiosamplesStop(s0, names, k, ctx);
    } else {
      assert names[..k] == names;
    }
  }

  // ---------------------------------------------------------------------
  // load_bio_credentials
  // ---------------------------------------------------------------------

  /** What reading the TOML configuration file gives: its table, no file, or a file that does not decode. */
  datatype TomlFile = Parsed(table: Row) | NoSuchFile | Undecodable

  /** Python truthiness of the environment variable: set and non-empty. */
  predicate EnvKeySet(env: Option<string>)
  {
    env.Some? && env.value != ""
  }

  /**
   * `load_bio_credentials`: the environment's key when it is set and
   * non-empty; otherwise, when a configuration file is named, its
   * `BIO_API_KEY` entry (FileNotFoundError when the file is missing,
   * ValueError when it does not decode); ValueError when no truthy key was
   * found either way.
   */
  function LoadBioCredentials(env: Option<string>, configFile: Option<string>, read: string -> TomlFile)
    : (r: Result<Value>)
    ensures r.Ok? ==> Truthy(r.value)
    ensures EnvKeySet(env) ==> r == Ok(Str(env.value))
    ensures r.Err? ==> r.error.kind == FileNotFoundError || r.error.kind == ValueError
    ensures (r.Err? && r.error.kind == FileNotFoundError)
            <==> !EnvKeySet(env) && configFile.Some? && configFile.value != "" && read(configFile.value) == NoSuchFile
  {
    if EnvKeySet(env) then Ok(Str(env.value))
    else
      var key: Result<Value> :=
        if configFile.Some? && configFile.value != "" then
          match read(configFile.value)
          case NoSuchFile => Err(Error(FileNotFoundError, [configFile.value]))
          case Undecodable => Err(Error(ValueError, []))
          case Parsed(table) => Ok(Get(table, ApiKeyName))
        else Ok(if env.Some? then Str(env.value) else Null);
      if key.Err? then key
      else if !Truthy(key.value) then Err(Error(ValueError, [ApiKeyName]))
      else key
  }

  /**
   * Without a key in the environment, a configuration file that decodes and
   * holds a truthy `BIO_API_KEY` supplies the key; one that lacks it gives
   * ValueError.
   */
  lemma ConfigFileFallback(env: Option<string>, path: string, read: string -> TomlFile)
    requires !EnvKeySet(env) && path != "" && read(path).Parsed?
    ensures var key := Get(read(path).table, ApiKeyName);
      var r := LoadBioCredentials(env, Some(path), read);
      (Truthy(key) ==> r == Ok(key)) && (!Truthy(key) ==> r == Err(Error(ValueError, [ApiKeyName])))
  {
  }

  /** Without a key in the environment and without a configuration file, the key is missing. */
  lemma NoKeyAnywhere(env: Option<string>, read: string -> TomlFile)
    requires !EnvKeySet(env)
    ensures LoadBioCredentials(env, None, read) == Err(Error(ValueError, [ApiKeyName]))
    ensures LoadBioCredentials(env, Some(""), read) == Err(Error(ValueError, [ApiKeyName]))
  {
  }
}
