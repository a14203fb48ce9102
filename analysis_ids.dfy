/**
 * The analysis ID of a rerun, shared by the GC/MS, NOM and LC/MS
 * generators: among the analyses already recorded for a raw data object,
 * the latest one is chosen, and the number that ends its ID is incremented
 * (`re.sub(r"(\d+)$", lambda m: str(int(m.group(1)) + 1), id)`).
 */
module AnalysisIds {
  import opened Common

  // ---------------------------------------------------------------------
  // The trailing-number increment
  // ---------------------------------------------------------------------

  /** Where the run of digits that ends `id` begins; `|id|` when `id` ends with a non-digit. */
  function TrailingDigitsStart(id: string): (i: nat)
    ensures i <= |id| && AllDigits(id[i..])
    ensures i > 0 ==> !IsDigit(id[i - 1])
  {
    if id == [] || !IsDigit(id[|id| - 1]) then |id|
    else
      var j := TrailingDigitsStart(id[..|id| - 1]);
      assert id[j..] == id[..|id| - 1][j..] + [id[|id| - 1]];
      j
  }

  /**
   * The ID with its trailing number replaced by that number plus one, in
   * decimal without leading zeros; an ID that does not end with a digit is
   * returned unchanged.
   */
  function IncrementId(id: string): string
  {
    var i := TrailingDigitsStart(id);
    if i == |id| then id else id[..i] + NatToString(DigitsValue(id[i..]) + 1)
  }

  /** Digits appended to a text that does not end with a digit form its whole trailing run. */
  lemma {:induction false} TrailingRunOfAppend(prefix: string, digits: string)
    requires AllDigits(digits)
    requires prefix == [] || !IsDigit(prefix[|prefix| - 1])
    ensures TrailingDigitsStart(prefix + digits) == |prefix|
    decreases |digits|
  {
    if digits == [] {
      assert prefix + digits == prefix;
    } else {
      var s := prefix + digits;
      assert s[..|s| - 1] == prefix + digits[..|digits| - 1];
      TrailingRunOfAppend(prefix, digits[..|digits| - 1]);
    }
  }

  /**
   * What the increment keeps and what it changes: the text before the
   * trailing number is kept, and the new trailing number is the old one
   * plus one; without a trailing number nothing changes.
   */
  lemma IncrementIdParts(id: string)
    ensures var i := TrailingDigitsStart(id);
      var r := IncrementId(id);
      (i == |id| ==> r == id)
      && (i < |id| ==>
            |r| > i && r[..i] == id[..i] && TrailingDigitsStart(r) == i
            && DigitsValue(r[i..]) == DigitsValue(id[i..]) + 1)
  {
    var i := TrailingDigitsStart(id);
    if i < |id| {
      var n := DigitsValue(id[i..]) + 1;
      var r := IncrementId(id);
      assert r == id[..i] + NatToString(n);
      TrailingRunOfAppend(id[..i], NatToString(n));
      assert r[i..] == NatToString(n);
      NatToStringRoundTrip(n);
    }
  }

  // ---------------------------------------------------------------------
  // Choosing the previous analysis
  // ---------------------------------------------------------------------

  /**
   * The `id` of every previous analysis record, in order: a record without
   * one raises KeyError and a non-string one TypeError, as the key function
   * and the substitution would.
   */
  function PreviousIds(prev: seq<Row>): (r: Result<seq<string>>)
    ensures r.Ok? ==> |r.value| == |prev| && forall j :: 0 <= j < |prev| ==> "id" in prev[j] && prev[j]["id"] == Str(r.value[j])
    ensures r.Err? <==> exists j :: 0 <= j < |prev| && ("id" !in prev[j] || !prev[j]["id"].Str?)
  {
    if prev == [] then Ok([])
    else
      var init := PreviousIds(prev[..|prev| - 1]);
      var last := prev[|prev| - 1];
      if init.Err? then
        var j :| 0 <= j < |prev| - 1 && ("id" !in prev[..|prev| - 1][j] || !prev[..|prev| - 1][j]["id"].Str?);
        assert prev[j] == prev[..|prev| - 1][j];
        init
      else if "id" !in last then Err(Error(KeyError, ["id"]))
      else if !last["id"].Str? then Err(Error(TypeError, ["id"]))
      else Ok(init.value + [last["id"].s])
  }

  /**
   * `max(ids)` as written: the first of the lexicographically greatest IDs
   * (Python compares strings code point by code point).
   */
  function GreatestIdIndex(ids: seq<string>): (k: nat)
    requires |ids| > 0
    ensures k < |ids|
    ensures forall j :: 0 <= j < |ids| ==> !LexLess(ids[k], ids[j])
    ensures forall j :: 0 <= j < k ==> LexLess(ids[j], ids[k])
  {
    if |ids| == 1 then LexIrreflexive(ids[0]); 0
    else
      var k := GreatestIdIndex(ids[..|ids| - 1]);
      var last := ids[|ids| - 1];
      assert forall j :: 0 <= j < |ids| - 1 ==> ids[..|ids| - 1][j] == ids[j];
      if LexLess(ids[k], last) then
        GreaterLast(ids, k);
        |ids| - 1
      else
        k
  }

  /** A last ID greater than the greatest before it is the greatest of all, and strictly. */
  lemma GreaterLast(ids: seq<string>, k: nat)
    requires k < |ids| - 1 && LexLess(ids[k], ids[|ids| - 1])
    requires forall j :: 0 <= j < |ids| - 1 ==> !LexLess(ids[k], ids[j])
    ensures forall j :: 0 <= j < |ids| ==> !LexLess(ids[|ids| - 1], ids[j])
    ensures forall j :: 0 <= j < |ids| - 1 ==> LexLess(ids[j], ids[|ids| - 1])
  {
    var last := ids[|ids| - 1];
    forall j | 0 <= j < |ids| ensures !LexLess(last, ids[j]) {
      if j < |ids| - 1 && LexLess(last, ids[j]) {
        LexTransitive(ids[k], last, ids[j]);
      } else if j == |ids| - 1 {
        LexIrreflexive(last);
      }
    }
    forall j | 0 <= j < |ids| - 1 ensures LexLess(ids[j], last) {
      LexTotal(ids[j], ids[k]);
      if LexLess(ids[j], ids[k]) {
        LexTransitive(ids[j], ids[k], last);
      }
    }
  }

  /** The version number an ID carries: its trailing number, or -1 when it has none. */
  function Version(id: string): int
  {
    var i := TrailingDigitsStart(id);
    if i == |id| then -1 else DigitsValue(id[i..])
  }

  /** The latest analysis: the first of the IDs with the greatest version number. */
  function LatestVersionIndex(ids: seq<string>): (k: nat)
    requires |ids| > 0
    ensures k < |ids|
    ensures forall j :: 0 <= j < |ids| ==> Version(ids[j]) <= Version(ids[k])
    ensures forall j :: 0 <= j < k ==> Version(ids[j]) < Version(ids[k])
  {
    if |ids| == 1 then 0
    else
      var k := LatestVersionIndex(ids[..|ids| - 1]);
      assert forall j :: 0 <= j < |ids| - 1 ==> ids[..|ids| - 1][j] == ids[j];
      if Version(ids[k]) < Version(ids[|ids| - 1]) then |ids| - 1 else k
  }

  /**
   * When some previous ID carries a version number, incrementing the one
   * with the greatest version yields an ID none of them has.
   */
  lemma LatestIncrementIsFresh(ids: seq<string>)
    requires exists j :: 0 <= j < |ids| && Version(ids[j]) >= 0
    ensures |ids| > 0 && IncrementId(ids[LatestVersionIndex(ids)]) !in ids
  {
    var k := LatestVersionIndex(ids);
    var next := IncrementId(ids[k]);
    IncrementIdParts(ids[k]);
    assert Version(next) == Version(ids[k]) + 1;
    forall j | 0 <= j < |ids| ensures ids[j] != next {
      assert Version(ids[j]) < Version(next);
    }
  }

  /**
   * As written, `max` compares IDs as strings, so once a ninth rerun
   * exists the ninth analysis is still the greatest (".9" > ".10") and the
   * rerun ID repeats one that exists; choosing by version does not.
   */
  lemma NinthRerunRepeatsId(stem: string)
    requires stem != [] && !IsDigit(stem[|stem| - 1])
    ensures var ids := [stem + "9", stem + "10"];
      GreatestIdIndex(ids) == 0 && IncrementId(ids[GreatestIdIndex(ids)]) == ids[1]
      && IncrementId(ids[LatestVersionIndex(ids)]) !in ids
  {
    var nine, ten := stem + "9", stem + "10";
    var ids := [nine, ten];
    assert LexLess(ten, nine) by {
      assert ten[..|stem|] == stem == nine[..|stem|];
      LexSamePrefix(ten, nine, |stem|);
    }
    LexAsymmetric(ten, nine);
    LexIrreflexive(nine);
    TrailingRunOfAppend(stem, "9");
    TrailingRunOfAppend(stem, "10");
    assert nine[..|stem|] == stem && nine[|stem|..] == "9";
    assert ten[..|stem|] == stem && ten[|stem|..] == "10";
    assert IncrementId(nine) == ten by {
      assert DigitsValue("9") + 1 == 10;
      assert NatToString(10) == "10";
    }
    assert Version(ids[0]) == 9;
    LatestIncrementIsFresh(ids);
  }

  /** The counterexample on an analysis ID of the shape the generators mint. */
  lemma LexicographicRerunRepeatsId()
    ensures var ids := ["nmdc:wfmb-11-abc.9", "nmdc:wfmb-11-abc.10"];
      IncrementId(ids[GreatestIdIndex(ids)]) in ids
      && IncrementId(ids[LatestVersionIndex(ids)]) !in ids
  {
    var stem := "nmdc:wfmb-11-abc.";
    assert stem + "9" == "nmdc:wfmb-11-abc.9";
    assert stem + "10" == "nmdc:wfmb-11-abc.10";
    NinthRerunRepeatsId(stem);
  }

  /** Strings that agree on their first `n` characters compare as their rests do. */
  lemma {:induction false} LexSamePrefix(a: string, b: string, n: nat)
    requires n < |a| && n < |b| && a[..n] == b[..n] && a[n] < b[n]
    ensures LexLess(a, b)
  {
    if n > 0 {
      assert a[1..][..n - 1] == b[1..][..n - 1];
      assert a[0] == a[..n][0] && b[0] == b[..n][0];
      LexSamePrefix(a[1..], b[1..], n - 1);
    }
  }

  // ---------------------------------------------------------------------
  // The rerun lookups
  // ---------------------------------------------------------------------

  /**
   * The previous analysis and the new ID of a GC/MS or LC/MS rerun, from the
   * records the search returned (or the error it raised): an empty result
   * raises ValueError, a bad `id` KeyError or TypeError, and otherwise the
   * latest analysis is chosen and its ID incremented.
   */
  function RerunAnalysis(found: Result<seq<Row>>): (r: Result<(Row, string)>)
    ensures found.Err? ==> r == Err(found.error)
    ensures found.Ok? && found.value == [] ==> r.Err? && r.error.kind == ValueError
    ensures r.Ok? ==>
      found.Ok? && PreviousIds(found.value).Ok? && |found.value| > 0
      && var ids := PreviousIds(found.value).value;
         var k := LatestVersionIndex(ids);
         r.value == (found.value[k], IncrementId(ids[k]))
  {
    if found.Err? then Err(found.error)
    else if found.value == [] then Err(Error(ValueError, []))
    else
      var ids := PreviousIds(found.value);
      if ids.Err? then Err(ids.error)
      else
        var k := LatestVersionIndex(ids.value);
        Ok((found.value[k], IncrementId(ids.value[k])))
  }

  /** The NOM rerun: the same choice, with every failure turned into IndexError. */
  function NomRerunAnalysis(found: Result<seq<Row>>): (r: Result<(Row, string)>)
    ensures r.Err? ==> r.error.kind == IndexError
    ensures r.Err? <==> RerunAnalysis(found).Err?
    ensures r.Ok? ==> r == RerunAnalysis(found)
  {
    var a := RerunAnalysis(found);
    if a.Err? then Err(Error(IndexError, [])) else a
  }
}
