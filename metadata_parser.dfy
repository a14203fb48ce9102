/**
 * The value readers of `MetadataParser`: looking a field up in a metadata
 * row (with the grouped sub-columns of quantity-valued Biosample fields) and
 * building the small NMDC value dictionaries (quantity, geolocation,
 * controlled term).
 */
module MetadataParser {
  import opened Common

  /** What the Biosample schema says about a field name: quantity-valued or not. */
  datatype FieldKind = QuantityField | PlainField

  /** The Biosample fields and their kinds; a name absent from it is not a Biosample field. */
  type BiosampleFields = map<string, FieldKind>

  const QuantityParts: seq<string> :=
    ["has_numeric_value", "has_minimum_numeric_value", "has_maximum_numeric_value", "has_unit", "has_raw_value"]

  /** The column a key is read from: Biosample fields carry the `biosample.` prefix. */
  function ColumnKey(key: string, fields: BiosampleFields): (col: string)
    ensures key in fields ==> col == "biosample." + key
    ensures key !in fields ==> col == key
  {
    if key in fields then "biosample." + key else key
  }

  /** `row.get(column, default)`. */
  function GetOr(row: Row, column: string, default: Value): Value
  {
    if column in row then row[column] else default
  }

  /** The sub-columns of a quantity field that hold something other than None. */
  function QuantityDict(row: Row, col: string, default: Value): (d: map<string, Value>)
    ensures forall k :: k in d <==> k in QuantityParts && GetOr(row, col + "." + k, default) != Null
    ensures forall k :: k in d ==> d[k] == GetOr(row, col + "." + k, default)
  {
    map k | k in QuantityParts && GetOr(row, col + "." + k, default) != Null :: GetOr(row, col + "." + k, default)
  }

  /**
   * `get_value`. A plain field yields its cell, or `default` when the column
   * is absent or holds NaN. A quantity field gathers its five sub-columns,
   * dropping None; nothing left gives `default`; otherwise a missing or
   * empty unit raises ValueError, and the gathered dictionary is returned.
   */
  function GetValue(row: Row, key: string, default: Value, fields: BiosampleFields): (r: Result<Value>)
    ensures var col := ColumnKey(key, fields);
      !(key in fields && fields[key] == QuantityField) ==>
        r.Ok?
        && ((col !in row || row[col].NaN?) ==> r.value == default)
        && ((col in row && !row[col].NaN?) ==> r.value == row[col])
    ensures var col := ColumnKey(key, fields);
      var d := QuantityDict(row, col, default);
      key in fields && fields[key] == QuantityField ==>
        (d == map[] ==> r == Ok(default))
        && (d != map[] && ("has_unit" !in d || !Truthy(d["has_unit"])) ==> r.Err? && r.error.kind == ValueError)
        && (d != map[] && "has_unit" in d && Truthy(d["has_unit"]) ==> r == Ok(Dict(d)))
  {
    var col := ColumnKey(key, fields);
    if key in fields && fields[key] == QuantityField then
      var d := QuantityDict(row, col, default);
      if d == map[] then Ok(default)
      else if "has_unit" !in d || !Truthy(d["has_unit"]) then Err(Error(ValueError, [col]))
      else Ok(Dict(d))
    else
      var v := GetOr(row, col, default);
      if v.NaN? then Ok(default) else Ok(v)
  }

  /** With the default None, a quantity field none of whose sub-columns exist reads as None. */
  lemma GetValueAbsentQuantity(row: Row, key: string, fields: BiosampleFields)
    requires key in fields && fields[key] == QuantityField
    requires forall k :: k in QuantityParts ==> ColumnKey(key, fields) + "." + k !in row
    ensures GetValue(row, key, Null, fields) == Ok(Null)
  {
    var d := QuantityDict(row, ColumnKey(key, fields), Null);
    assert d == map[];
  }

  /** A NaN unit is truthy, so it passes the unit check; only None, an absent column or "" raise. */
  lemma GetValueNaNUnitAccepted(row: Row, key: string, fields: BiosampleFields)
    requires key in fields && fields[key] == QuantityField
    requires Get(row, ColumnKey(key, fields) + ".has_unit") == NaN
    ensures GetValue(row, key, Null, fields).Ok?
  {
    var col := ColumnKey(key, fields);
    var d := QuantityDict(row, col, Null);
    assert col + "." + "has_unit" == col + ".has_unit";
    assert GetOr(row, col + "." + "has_unit", Null) == NaN;
    assert "has_unit" in d;
  }

  /**
   * `create_quantity_value`: drops the None entries, keeps every other entry
   * unchanged and sets `type` to `nmdc:QuantityValue`.
   */
  function CreateQuantityValue(d: map<string, Value>): (r: map<string, Value>)
    ensures "type" in r && r["type"] == Str("nmdc:QuantityValue")
    ensures forall k :: k != "type" ==> (k in r <==> k in d && d[k] != Null)
    ensures forall k :: k in r && k != "type" ==> r[k] == d[k]
  {
    var kept := if d != map[] then map k | k in d && d[k] != Null :: d[k] else d;
    kept["type" := Str("nmdc:QuantityValue")]
  }

  /** Building a quantity value from one already built changes nothing. */
  lemma CreateQuantityValueIdempotent(d: map<string, Value>)
    ensures CreateQuantityValue(CreateQuantityValue(d)) == CreateQuantityValue(d)
  {
    var once := CreateQuantityValue(d);
    var twice := CreateQuantityValue(once);
    assert twice.Keys == once.Keys;
    assert forall k :: k in twice ==> twice[k] == once[k];
  }

  /**
   * `create_geo_loc_value`: the raw value split at its first space into
   * latitude and longitude; a value without a space cannot be unpacked
   * (ValueError).
   */
  function CreateGeoLocValue(raw: string): (r: Result<Row>)
    ensures r.Ok? <==> ' ' in raw
    ensures r.Ok? ==>
      "latitude" in r.value && "longitude" in r.value && "has_raw_value" in r.value && "type" in r.value
      && r.value["latitude"].Str? && r.value["longitude"].Str?
      && r.value["latitude"].s + " " + r.value["longitude"].s == raw
      && ' ' !in r.value["latitude"].s
      && r.value["has_raw_value"] == Str(raw) && r.value["type"] == Str("nmdc:GeolocationValue")
  {
    if ' ' !in raw then Err(Error(ValueError, [raw]))
    else
      var i := IndexOf(raw, ' ');
      assert raw[..i] + " " + raw[i + 1..] == raw;
      Ok(map["has_raw_value" := Str(raw), "latitude" := Str(raw[..i]), "longitude" := Str(raw[i + 1..]),
             "type" := Str("nmdc:GeolocationValue")])
  }

  /** Latitude and longitude read back from a geolocation value rebuild it. */
  lemma GeoLocRoundTrip(lat: string, long: string)
    requires ' ' !in lat
    ensures var r := CreateGeoLocValue(lat + " " + long);
      r.Ok? && r.value["latitude"] == Str(lat) && r.value["longitude"] == Str(long)
  {
    var raw := lat + " " + long;
    assert raw[|lat|] == ' ';
    assert raw[..|lat|] == lat;
    var i := IndexOf(raw, ' ');
    assert i == |lat|;
    assert raw[..i] == lat && raw[i + 1..] == long;
  }

  /**
   * `create_controlled_identified_term_value`: the raw value is both the
   * term's id and the raw value; the term's name is the enumeration's entry
   * for it, or None.
   */
  function CreateControlledIdentifiedTermValue(rowValue: string, slotEnum: map<string, string>): (r: Row)
    ensures "term" in r && r["term"].Dict? && "id" in r["term"].entries && "name" in r["term"].entries
    ensures r["term"].entries["id"] == Str(rowValue) && "has_raw_value" in r && r["has_raw_value"] == Str(rowValue)
    ensures rowValue in slotEnum <==> r["term"].entries["name"] != Null
    ensures rowValue in slotEnum ==> r["term"].entries["name"] == Str(slotEnum[rowValue])
    ensures "type" in r && r["type"] == Str("nmdc:ControlledIdentifiedTermValue")
  {
    var name := if rowValue in slotEnum then Str(slotEnum[rowValue]) else Null;
    map["has_raw_value" := Str(rowValue),
        "term" := Dict(map["id" := Str(rowValue), "name" := name, "type" := Str("nmdc:OntologyClass")]),
        "type" := Str("nmdc:ControlledIdentifiedTermValue")]
  }
}
