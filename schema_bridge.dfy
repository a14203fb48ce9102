/**
 * `SchemaBridge`: the registry of NMDC schema classes, indexed by class
 * name, CURIE and ID typecode, and the registry of material-processing
 * classes. The schema view and the `id_helpers` typecode functions are
 * given as oracles.
 */
module SchemaBridge {
  import opened Common

  /** `SchemaTypeMetadata`: a schema class, its CURIE and the typecodes its IDs may use. */
  datatype SchemaTypeMetadata = SchemaTypeMetadata(className: string, curie: string,
                                                   compatibleTypecodes: seq<string>,
                                                   preferredTypecode: Option<string>)

  /** Python truthiness of an optional string. */
  predicate Given(s: Option<string>)
  {
    s.Some? && s.value != ""
  }

  /**
   * `primary_typecode`: the preferred typecode when it is set, otherwise the
   * first compatible one, otherwise None.
   */
  function PrimaryTypecode(m: SchemaTypeMetadata): (r: Option<string>)
    ensures Given(m.preferredTypecode) ==> r == m.preferredTypecode
    ensures !Given(m.preferredTypecode) ==>
      (m.compatibleTypecodes == [] <==> r.None?) && (r.Some? ==> r.value == m.compatibleTypecodes[0])
  {
    if Given(m.preferredTypecode) then m.preferredTypecode
    else if m.compatibleTypecodes != [] then Some(m.compatibleTypecodes[0])
    else None
  }

  /** A primary typecode is the preferred one or one of the compatible ones. */
  lemma PrimaryIsCompatibleOrPreferred(m: SchemaTypeMetadata)
    ensures var r := PrimaryTypecode(m);
      r.Some? ==> r == m.preferredTypecode || r.value in m.compatibleTypecodes
  {
  }

  /** A class of the schema view: its name, its `class_uri`, and the pattern of its `id` slot if it has one. */
  datatype ClassDef = ClassDef(name: string, classUri: Option<string>, idPattern: Option<string>)

  /** `get_compatible_typecodes` and `get_typecode_for_future_ids` of a pattern. */
  datatype IdHelpers = IdHelpers(compatible: string -> seq<string>, future: string -> Option<string>)

  /** The class's CURIE: its `class_uri`, or `nmdc:` and its name when that is not set. */
  function Curie(c: ClassDef): (curie: string)
    ensures Given(c.classUri) ==> curie == c.classUri.value
    ensures !Given(c.classUri) ==> curie == "nmdc:" + c.name
  {
    if Given(c.classUri) then c.classUri.value else "nmdc:" + c.name
  }

  /** The metadata of a class: typecodes only when its `id` slot has a pattern. */
  function MetadataOf(c: ClassDef, helpers: IdHelpers): (m: SchemaTypeMetadata)
    ensures m.className == c.name && m.curie == Curie(c)
    ensures !Given(c.idPattern) ==> m.compatibleTypecodes == [] && m.preferredTypecode.None?
    ensures !Given(c.idPattern) ==> PrimaryTypecode(m).None?
  {
    if Given(c.idPattern) then
      SchemaTypeMetadata(c.name, Curie(c), helpers.compatible(c.idPattern.value), helpers.future(c.idPattern.value))
    else SchemaTypeMetadata(c.name, Curie(c), [], None)
  }

  /** The metadata of every class, in the view's order. */
  function Metadata(classes: seq<ClassDef>, helpers: IdHelpers): (ms: seq<SchemaTypeMetadata>)
    ensures |ms| == |classes|
    ensures forall i :: 0 <= i < |classes| ==> ms[i] == MetadataOf(classes[i], helpers)
  {
    seq(|classes|, i requires 0 <= i < |classes| => MetadataOf(classes[i], helpers))
  }

  // ---------------------------------------------------------------------
  // get_schema_type_registry
  // ---------------------------------------------------------------------

  /** `SchemaTypeRegistry`: the three indexes. */
  datatype SchemaTypeRegistry = SchemaTypeRegistry(byClassName: map<string, SchemaTypeMetadata>,
                                                   byCurie: map<string, SchemaTypeMetadata>,
                                                   byTypecode: map<string, SchemaTypeMetadata>)

  /** An index in which a later entry with the same key replaces an earlier one. */
  function IndexLast(ms: seq<SchemaTypeMetadata>, key: SchemaTypeMetadata -> string): map<string, SchemaTypeMetadata>
  {
    if ms == [] then map[]
    else IndexLast(ms[..|ms| - 1], key)[key(ms[|ms| - 1]) := ms[|ms| - 1]]
  }

  /** The typecode index: a class is entered under its primary typecode unless another class already holds it. */
  function IndexTypecodes(ms: seq<SchemaTypeMetadata>): map<string, SchemaTypeMetadata>
  {
    if ms == [] then map[]
    else
      var index := IndexTypecodes(ms[..|ms| - 1]);
      var m := ms[|ms| - 1];
      var code := PrimaryTypecode(m);
      if !Given(code) then index
      else if code.value in index && index[code.value] != m then index
      else index[code.value := m]
  }

  function ClassNameOf(m: SchemaTypeMetadata): string { m.className }

  function CurieOf(m: SchemaTypeMetadata): string { m.curie }

  /** The registry `get_schema_type_registry` builds from the metadata of the view's classes. */
  function RegistryOf(ms: seq<SchemaTypeMetadata>): SchemaTypeRegistry
  {
    SchemaTypeRegistry(IndexLast(ms, ClassNameOf), IndexLast(ms, CurieOf), IndexTypecodes(ms))
  }

  /**
   * Every entry is indexed under its key, and the index holds, for each key,
   * the last entry with that key.
   */
  lemma {:induction false} IndexLastHoldsLast(ms: seq<SchemaTypeMetadata>, key: SchemaTypeMetadata -> string, j: nat)
    requires j < |ms|
    requires forall l :: j < l < |ms| ==> key(ms[l]) != key(ms[j])
    ensures key(ms[j]) in IndexLast(ms, key) && IndexLast(ms, key)[key(ms[j])] == ms[j]
  {
    var n := |ms| - 1;
    if j < n {
      assert forall l :: j < l < n ==> ms[..n][l] == ms[l];
      IndexLastHoldsLast(ms[..n], key, j);
      assert ms[..n][j] == ms[j];
    }
  }

  /** The index has no keys but those of its entries. */
  lemma {:induction false} IndexLastKeys(ms: seq<SchemaTypeMetadata>, key: SchemaTypeMetadata -> string, k: string)
    requires k in IndexLast(ms, key)
    ensures exists j :: 0 <= j < |ms| && key(ms[j]) == k && IndexLast(ms, key)[k] == ms[j]
  {
    var n := |ms| - 1;
    if key(ms[n]) != k {
      IndexLastKeys(ms[..n], key, k);
      var j :| 0 <= j < n && key(ms[..n][j]) == k && IndexLast(ms[..n], key)[k] == ms[..n][j];
      assert ms[..n][j] == ms[j];
    }
  }

  /** The typecode index only holds entries under their own primary typecode. */
  lemma {:induction false} TypecodeKeys(ms: seq<SchemaTypeMetadata>, code: string)
    requires code in IndexTypecodes(ms)
    ensures PrimaryTypecode(IndexTypecodes(ms)[code]) == Some(code) && code != ""
    ensures exists j :: 0 <= j < |ms| && ms[j] == IndexTypecodes(ms)[code]
  {
    var n := |ms| - 1;
    var index := IndexTypecodes(ms[..n]);
    if code in index && IndexTypecodes(ms)[code] == index[code] {
      TypecodeKeys(ms[..n], code);
      var j :| 0 <= j < n && ms[..n][j] == index[code];
      assert ms[..n][j] == ms[j];
    }
  }

  /**
   * The typecode index keeps the first class seen for a code: entry `j`
   * with primary typecode `code`, when no earlier entry has that code, is
   * the one indexed under it.
   */
  lemma {:induction false} TypecodeFirstWins(ms: seq<SchemaTypeMetadata>, j: nat, code: string)
    requires j < |ms| && PrimaryTypecode(ms[j]) == Some(code) && code != ""
    requires forall l :: 0 <= l < j ==> PrimaryTypecode(ms[l]) != Some(code)
    ensures code in IndexTypecodes(ms) && IndexTypecodes(ms)[code] == ms[j]
  {
    var n := |ms| - 1;
    if j < n {
      assert ms[..n][j] == ms[j];
      assert forall l :: 0 <= l < j ==> ms[..n][l] == ms[l];
      TypecodeFirstWins(ms[..n], j, code);
    } else {
      assert ms[..n] == ms[..j];
      CodeNotYetIndexed(ms[..n], code);
    }
  }

  /** A code no entry has as its primary typecode is not in the typecode index. */
  lemma {:induction false} CodeNotYetIndexed(ms: seq<SchemaTypeMetadata>, code: string)
    requires forall l :: 0 <= l < |ms| ==> PrimaryTypecode(ms[l]) != Some(code)
    ensures code !in IndexTypecodes(ms)
  {
    if ms != [] {
      var n := |ms| - 1;
      assert forall l :: 0 <= l < n ==> ms[..n][l] == ms[l];
      CodeNotYetIndexed(ms[..n], code);
    }
  }

  /**
   * `get_schema_type_registry`: every class of the view indexed by name and
   * by CURIE, and by its primary typecode when it has one that no earlier
   * class holds (later conflicting classes are only logged).
   */
  method GetSchemaTypeRegistry(classes: seq<ClassDef>, helpers: IdHelpers) returns (registry: SchemaTypeRegistry)
    ensures registry == RegistryOf(Metadata(classes, helpers))
  {
    ghost var ms := Metadata(classes, helpers);
    var byClass: map<string, SchemaTypeMetadata> := map[];
    var byCurie: map<string, SchemaTypeMetadata> := map[];
    var byTypecode: map<string, SchemaTypeMetadata> := map[];
    var k := 0;
    while k < |classes|
      invariant 0 <= k <= |classes|
      invariant byClass == IndexLast(ms[..k], ClassNameOf)
      invariant byCurie == IndexLast(ms[..k], CurieOf)
      invariant byTypecode == IndexTypecodes(ms[..k])
    {
      var metadata := MetadataOf(classes[k], helpers);
      assert ms[..k + 1][..k] == ms[..k] && ms[..k + 1][k] == metadata;
      byClass := byClass[classes[k].name := metadata];
      byCurie := byCurie[metadata.curie := metadata];
      var primary := PrimaryTypecode(metadata);
      if Given(primary) {
        if primary.value in byTypecode && byTypecode[primary.value] != metadata {
          // a conflicting typecode is only logged
        } else {
          byTypecode := byTypecode[primary.value := metadata];
        }
      }
      k := k + 1;
    }
    assert ms[..k] == ms;
    registry := SchemaTypeRegistry(byClass, byCurie, byTypecode);
  }

  /**
   * In the registry of a view whose class names are distinct, every class
   * is found under its name, with its own metadata, and under its CURIE.
   */
  lemma EveryClassIndexed(classes: seq<ClassDef>, helpers: IdHelpers, i: nat)
    requires i < |classes|
    requires forall a, b :: 0 <= a < b < |classes| ==> classes[a].name != classes[b].name
    ensures var registry := RegistryOf(Metadata(classes, helpers));
      classes[i].name in registry.byClassName && registry.byClassName[classes[i].name] == MetadataOf(classes[i], helpers)
      && Curie(classes[i]) in registry.byCurie
  {
    var ms := Metadata(classes, helpers);
    IndexLastHoldsLast(ms, ClassNameOf, i);
    var l := LastWithKey(ms, CurieOf, i);
    IndexLastHoldsLast(ms, CurieOf, l);
  }

  /** The last entry from `i` on with the key of entry `i`. */
  function LastWithKey(ms: seq<SchemaTypeMetadata>, key: SchemaTypeMetadata -> string, i: nat): (l: nat)
    requires i < |ms|
    ensures i <= l < |ms| && key(ms[l]) == key(ms[i])
    ensures forall m :: l < m < |ms| ==> key(ms[m]) != key(ms[i])
    decreases |ms| - i
  {
    if exists m :: i < m < |ms| && key(ms[m]) == key(ms[i]) then
      var m :| i < m < |ms| && key(ms[m]) == key(ms[i]);
      LastWithKey(ms, key, m)
    else i
  }

  // ---------------------------------------------------------------------
  // Lookups
  // ---------------------------------------------------------------------

  /** `get_metadata_for_class`: KeyError for a class the schema does not define. */
  function MetadataForClass(registry: SchemaTypeRegistry, className: string): (r: Result<SchemaTypeMetadata>)
    ensures r.Ok? <==> className in registry.byClassName
    ensures r.Ok? ==> r.value == registry.byClassName[className]
    ensures r.Err? ==> r.error == Error(KeyError, [className])
  {
    if className in registry.byClassName then Ok(registry.byClassName[className])
    else Err(Error(KeyError, [className]))
  }

  /** `get_metadata_for_typecode`: KeyError for a typecode no class holds. */
  function MetadataForTypecode(registry: SchemaTypeRegistry, typecode: string): (r: Result<SchemaTypeMetadata>)
    ensures r.Ok? <==> typecode in registry.byTypecode
    ensures r.Ok? ==> r.value == registry.byTypecode[typecode]
    ensures r.Err? ==> r.error == Error(KeyError, [typecode])
  {
    if typecode in registry.byTypecode then Ok(registry.byTypecode[typecode])
    else Err(Error(KeyError, [typecode]))
  }

  /** `get_curie_for_class`: the CURIE of the class's metadata, or the lookup's KeyError. */
  function CurieForClass(registry: SchemaTypeRegistry, className: string): (r: Result<string>)
    ensures r.Ok? <==> className in registry.byClassName
    ensures r.Ok? ==> r.value == registry.byClassName[className].curie
    ensures r.Err? ==> r.error == Error(KeyError, [className])
  {
    match MetadataForClass(registry, className)
    case Ok(m) => Ok(m.curie)
    case Err(e) => Err(e)
  }

  /** In a registry built from a view, a class's CURIE is its `class_uri` or `nmdc:` and its name. */
  lemma CurieOfDefinedClass(classes: seq<ClassDef>, helpers: IdHelpers, i: nat)
    requires i < |classes|
    requires forall a, b :: 0 <= a < b < |classes| ==> classes[a].name != classes[b].name
    ensures CurieForClass(RegistryOf(Metadata(classes, helpers)), classes[i].name) == Ok(Curie(classes[i]))
  {
    EveryClassIndexed(classes, helpers, i);
  }

  /**
   * `get_typecode_for_curie` as written: it returns the whole metadata
   * record found under the CURIE, not a typecode.
   */
  function TypecodeForCurieAsWritten(registry: SchemaTypeRegistry, curie: string): (r: Result<SchemaTypeMetadata>)
    ensures r.Ok? <==> curie in registry.byCurie
    ensures r.Ok? ==> r.value == registry.byCurie[curie]
    ensures r.Err? ==> r.error == Error(KeyError, [curie])
  {
    if curie in registry.byCurie then Ok(registry.byCurie[curie]) else Err(Error(KeyError, [curie]))
  }

  /** `get_typecode_for_curie` as its signature and documentation describe it: the class's primary typecode. */
  function TypecodeForCurie(registry: SchemaTypeRegistry, curie: string): (r: Result<Option<string>>)
    ensures r.Ok? <==> curie in registry.byCurie
    ensures r.Ok? ==> r.value == PrimaryTypecode(registry.byCurie[curie])
    ensures r.Err? ==> r.error == Error(KeyError, [curie])
  {
    match TypecodeForCurieAsWritten(registry, curie)
    case Ok(m) => Ok(PrimaryTypecode(m))
    case Err(e) => Err(e)
  }

  /**
   * For the Biosample class (IDs `nmdc:bsm-…`), the lookup as written hands
   * back the class's metadata record where the typecode `bsm` is promised.
   */
  lemma BiosampleCurieGivesRecord()
    ensures var biosample := ClassDef("Biosample", Some("nmdc:Biosample"), Some("^(nmdc):bsm-([0-9][a-z]{0,6}[0-9])-([A-Za-z0-9]{1,})$"));
      var helpers := IdHelpers(_ => ["bsm"], _ => Some("bsm"));
      var registry := RegistryOf(Metadata([biosample], helpers));
      TypecodeForCurieAsWritten(registry, "nmdc:Biosample")
        == Ok(SchemaTypeMetadata("Biosample", "nmdc:Biosample", ["bsm"], Some("bsm")))
      && TypecodeForCurie(registry, "nmdc:Biosample") == Ok(Some("bsm"))
  {
    var biosample := ClassDef("Biosample", Some("nmdc:Biosample"), Some("^(nmdc):bsm-([0-9][a-z]{0,6}[0-9])-([A-Za-z0-9]{1,})$"));
    var helpers := IdHelpers(_ => ["bsm"], _ => Some("bsm"));
    var ms := Metadata([biosample], helpers);
    assert ms == [SchemaTypeMetadata("Biosample", "nmdc:Biosample", ["bsm"], Some("bsm"))];
    assert ms[..0] == [];
  }

  // ---------------------------------------------------------------------
  // Material-processing classes
  // ---------------------------------------------------------------------

  const MaterialProcessing: string := "MaterialProcessing"

  /** A runtime class of the `nmdc` module: its name and whether it subclasses `MaterialProcessing`. */
  datatype RuntimeClass = RuntimeClass(name: string, isMaterialProcessing: bool)

  /**
   * The names the material-processing registry keeps from the schema's
   * descendants of `MaterialProcessing`, in order: not the class itself,
   * and only those with a runtime class that subclasses it.
   */
  function KeptProcessTypes(descendants: seq<string>, runtime: string -> Option<RuntimeClass>): (kept: seq<string>)
    ensures forall n :: n in kept <==>
      n in descendants && n != MaterialProcessing && runtime(n).Some? && runtime(n).value.isMaterialProcessing
  {
    if descendants == [] then []
    else
      var init := descendants[..|descendants| - 1];
      var n := descendants[|descendants| - 1];
      assert descendants == init + [n];
      var keep := n != MaterialProcessing && runtime(n).Some? && runtime(n).value.isMaterialProcessing;
      KeptProcessTypes(init, runtime) + if keep then [n] else []
  }

  /**
   * `_get_material_processing_registry`: each kept name to its runtime
   * class. `descendants` is None when the schema has no such class.
   */
  method MaterialProcessingRegistry(descendants: Option<seq<string>>, runtime: string -> Option<RuntimeClass>)
    returns (registry: map<string, RuntimeClass>)
    ensures var names := KeptProcessTypes(if descendants.Some? then descendants.value else [], runtime);
      forall n :: n in registry <==> n in names
    ensures forall n :: n in registry ==> runtime(n) == Some(registry[n])
  {
    var names := if descendants.Some? then descendants.value else [];
    registry := map[];
    var k := 0;
    while k < |names|
      invariant 0 <= k <= |names|
      invariant forall n :: n in registry <==>
        (n in names[..k] && n != MaterialProcessing && runtime(n).Some? && runtime(n).value.isMaterialProcessing)
      invariant forall n :: n in registry ==> runtime(n) == Some(registry[n])
    {
      var name := names[k];
      assert names[..k + 1] == names[..k] + [name];
      if name != MaterialProcessing {
        var cls := runtime(name);
        if cls.Some? && cls.value.isMaterialProcessing {
          registry := registry[name := cls.value];
        }
      }
      k := k + 1;
    }
    assert names[..k] == names;
  }

  /** `list_material_processing_types` of a registry whose names are `names`: each name once, sorted. */
  function ProcessTypeListing(names: seq<string>): (listing: seq<string>)
    ensures LexSorted(listing) && NoDuplicates(listing)
    ensures forall n :: n in listing <==> n in names
  {
    var distinct := Dedup(names);
    var listing := SortStrings(distinct);
    NoDuplicatesPermutation(distinct, listing);
    assert forall n :: n in listing <==> n in names by {
      forall n ensures n in listing <==> n in names {
        assert n in listing <==> n in multiset(listing);
        assert n in distinct <==> n in multiset(distinct);
      }
    }
    listing
  }

  /**
   * `get_material_processing_class`: the registered class, or KeyError
   * naming the type and listing the available ones.
   */
  function MaterialProcessingClass(registry: map<string, RuntimeClass>, names: seq<string>, processType: string)
    : (r: Result<RuntimeClass>)
    ensures r.Ok? <==> processType in registry
    ensures r.Ok? ==> r.value == registry[processType]
    ensures r.Err? ==> r.error == Error(KeyError, [processType] + ProcessTypeListing(names))
  {
    if processType in registry then Ok(registry[processType])
    else Err(Error(KeyError, [processType] + ProcessTypeListing(names)))
  }

  /**
   * The registry never holds `MaterialProcessing` itself, so asking for it
   * raises KeyError; the listing in the error is sorted and holds exactly
   * the registered types.
   */
  lemma MaterialProcessingItselfUnknown(descendants: seq<string>, runtime: string -> Option<RuntimeClass>,
                                        registry: map<string, RuntimeClass>)
    requires forall n :: n in registry <==> n in KeptProcessTypes(descendants, runtime)
    ensures var names := KeptProcessTypes(descendants, runtime);
      var r := MaterialProcessingClass(registry, names, MaterialProcessing);
      r.Err? && r.error.kind == KeyError && r.error.names[0] == MaterialProcessing
      && LexSorted(r.error.names[1..]) && forall n :: n in r.error.names[1..] <==> n in registry
  {
    var names := KeptProcessTypes(descendants, runtime);
    var r := MaterialProcessingClass(registry, names, MaterialProcessing);
    assert MaterialProcessing !in names;
    assert r.error.names[1..] == ProcessTypeListing(names);
  }
}
