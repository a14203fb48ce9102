/**
 * `YamlSpecifier`: adjusts a material-processing outline to one biosample.
 * An outline is a list of steps (each a process with input and output
 * placeholders and further slots) and a list of processed-sample outlines.
 * Quantity slots are patched in place from sheet rows, and the outline is
 * pruned to the steps that lead to the requested placeholders.
 */
module YamlSpecifier {
  import opened Common

  /**
   * One step of the outline: its key (`Step 2: ...`), the process type
   * under it, the placeholders in `has_input` and `has_output` (empty when
   * absent) and the process's other slots.
   */
  datatype Step = Step(key: string, processType: string, inputs: seq<string>, outputs: seq<string>,
                       slots: map<string, Value>)

  /** A processed-sample outline, keyed by its placeholder. */
  datatype SampleOutline = SampleOutline(placeholder: string, body: map<string, Value>)

  /** A sheet row asking to set a quantity: process type, slot name and value. */
  datatype QuantityRow = QuantityRow(stepname: string, slotname: string, value: Value)

  /** Python's `str()` of a scalar cell. */
  function Display(v: Value): string
  {
    match v
    case Null => "None"
    case NaN => "nan"
    case Str(s) => s
    case Int(i) => IntToString(i)
    case Bool(b) => if b then "True" else "False"
    case List(_) => ""
    case Dict(_) => ""
  }

  /** A slot that is a dictionary whose `type` is `nmdc:QuantityValue`. */
  predicate IsQuantitySlot(v: Value)
  {
    v.Dict? && "type" in v.entries && v.entries["type"] == Str("nmdc:QuantityValue")
  }

  /**
   * The slot after a row's value is written into it: `has_numeric_value` is
   * the value and, when the slot has a unit, `has_raw_value` is the value and
   * the unit separated by a space. Without a unit the write of
   * `has_raw_value` raises KeyError after `has_numeric_value` was set.
   */
  function PatchSlot(slot: Value, v: Value): (r: Value)
    requires IsQuantitySlot(slot)
    ensures IsQuantitySlot(r)
    ensures "has_numeric_value" in r.entries && r.entries["has_numeric_value"] == v
    ensures "has_unit" in r.entries <==> "has_unit" in slot.entries
    ensures "has_unit" in slot.entries ==>
      r.entries["has_unit"] == slot.entries["has_unit"]
      && "has_raw_value" in r.entries
      && r.entries["has_raw_value"] == Str(Display(v) + " " + Display(slot.entries["has_unit"]))
    ensures forall k :: k != "has_numeric_value" && k != "has_raw_value" ==>
      (k in r.entries <==> k in slot.entries) && (k in r.entries ==> r.entries[k] == slot.entries[k])
  {
    var e := slot.entries["has_numeric_value" := v];
    if "has_unit" in e then
      Dict(e["has_raw_value" := Str(Display(v) + " " + Display(e["has_unit"]))])
    else
      Dict(e)
  }

  /** Writing the same value twice leaves the slot as one write does. */
  lemma PatchSlotIdempotent(slot: Value, v: Value)
    requires IsQuantitySlot(slot)
    ensures PatchSlot(PatchSlot(slot, v), v) == PatchSlot(slot, v)
  {
    var once := PatchSlot(slot, v);
    var twice := PatchSlot(once, v);
    assert twice.entries.Keys == once.entries.Keys;
  }

  /** Whether a row addresses a quantity slot of this step. */
  predicate Matches(s: Step, row: QuantityRow)
  {
    s.processType == row.stepname && row.slotname in s.slots && IsQuantitySlot(s.slots[row.slotname])
  }

  /** A row applied to one step: the patched step, and whether the write raised KeyError. */
  function PatchStep(s: Step, row: QuantityRow): (r: (Step, bool))
    ensures !Matches(s, row) ==> r == (s, false)
    ensures Matches(s, row) ==> r.1 == ("has_unit" !in s.slots[row.slotname].entries)
  {
    if Matches(s, row) then
      var slot := s.slots[row.slotname];
      (s.(slots := s.slots[row.slotname := PatchSlot(slot, row.value)]), "has_unit" !in slot.entries)
    else (s, false)
  }

  /** One row applied to the first `j` steps, stopping at the first KeyError. */
  function ApplyRowUpTo(steps: seq<Step>, row: QuantityRow, j: nat): (r: (seq<Step>, bool))
    requires j <= |steps|
    ensures |r.0| == |steps|
  {
    if j == 0 then (steps, false)
    else
      var prev := ApplyRowUpTo(steps, row, j - 1);
      if prev.1 then prev
      else
        var patched := PatchStep(prev.0[j - 1], row);
        (prev.0[j - 1 := patched.0], patched.1)
  }

  /** The first `i` rows applied to every step; the error is the KeyError of a slot without a unit. */
  function ApplyRowsUpTo(steps: seq<Step>, rows: seq<QuantityRow>, i: nat): (r: (seq<Step>, Option<Error>))
    requires i <= |rows|
    ensures |r.0| == |steps|
  {
    if i == 0 then (steps, None)
    else
      var prev := ApplyRowsUpTo(steps, rows, i - 1);
      if prev.1.Some? then prev
      else
        var applied := ApplyRowUpTo(prev.0, rows[i - 1], |prev.0|);
        (applied.0, if applied.1 then Some(Error(KeyError, ["has_unit"])) else None)
  }

  /** Once a row has raised, the later steps are not visited. */
  lemma {:induction false} ApplyRowStops(steps: seq<Step>, row: QuantityRow, j: nat, j2: nat)
    requires j <= j2 <= |steps| && ApplyRowUpTo(steps, row, j).1
    ensures ApplyRowUpTo(steps, row, j2) == ApplyRowUpTo(steps, row, j)
    decreases j2
  {
    if j2 > j {
      ApplyRowStops(steps, row, j, j2 - 1);
    }
  }

  /** Once a row has raised, the later rows are not applied. */
  lemma {:induction false} ApplyRowsStops(steps: seq<Step>, rows: seq<QuantityRow>, i: nat, i2: nat)
    requires i <= i2 <= |rows| && ApplyRowsUpTo(steps, rows, i).1.Some?
    ensures ApplyRowsUpTo(steps, rows, i2) == ApplyRowsUpTo(steps, rows, i)
    decreases i2
  {
    if i2 > i {
      ApplyRowsStops(steps, rows, i, i2 - 1);
    }
  }

  /** The slot-level shape a quantity patch keeps: key, process, placeholders and units. */
  predicate SameShape(a: Step, b: Step)
  {
    a.key == b.key && a.processType == b.processType && a.inputs == b.inputs && a.outputs == b.outputs
    && a.slots.Keys == b.slots.Keys
    && (forall n :: n in a.slots && !IsQuantitySlot(a.slots[n]) ==> b.slots[n] == a.slots[n])
    && (forall n :: n in a.slots && IsQuantitySlot(a.slots[n]) ==>
          IsQuantitySlot(b.slots[n])
          && ("has_unit" in b.slots[n].entries <==> "has_unit" in a.slots[n].entries)
          && ("has_unit" in a.slots[n].entries ==> b.slots[n].entries["has_unit"] == a.slots[n].entries["has_unit"]))
  }

  lemma SameShapeTransitive(a: Step, b: Step, c: Step)
    requires SameShape(a, b) && SameShape(b, c)
    ensures SameShape(a, c)
  {
  }

  lemma PatchStepShape(s: Step, row: QuantityRow)
    ensures SameShape(s, PatchStep(s, row).0)
  {
  }

  /** Applying one row keeps every step's shape: only quantity slots change, and never their unit. */
  lemma {:induction false} ApplyRowShape(steps: seq<Step>, row: QuantityRow, j: nat)
    requires j <= |steps|
    ensures forall k :: 0 <= k < |steps| ==> SameShape(steps[k], ApplyRowUpTo(steps, row, j).0[k])
  {
    if j > 0 {
      ApplyRowShape(steps, row, j - 1);
      var prev := ApplyRowUpTo(steps, row, j - 1);
      if !prev.1 {
        var patched := PatchStep(prev.0[j - 1], row).0;
        PatchStepShape(prev.0[j - 1], row);
        SameShapeTransitive(steps[j - 1], prev.0[j - 1], patched);
        var cur := prev.0[j - 1 := patched];
        assert ApplyRowUpTo(steps, row, j).0 == cur;
        forall k | 0 <= k < |steps| ensures SameShape(steps[k], cur[k]) {
          if k != j - 1 {
            assert cur[k] == prev.0[k];
          }
        }
      }
    }
  }

  /** Applying rows keeps every step's shape: only quantity slots change, and never their unit. */
  lemma {:induction false} ApplyRowsShape(steps: seq<Step>, rows: seq<QuantityRow>, i: nat)
    requires i <= |rows|
    ensures forall k :: 0 <= k < |steps| ==> SameShape(steps[k], ApplyRowsUpTo(steps, rows, i).0[k])
  {
    if i > 0 {
      ApplyRowsShape(steps, rows, i - 1);
      var prev := ApplyRowsUpTo(steps, rows, i - 1);
      if prev.1.None? {
        ApplyRowShape(prev.0, rows[i - 1], |prev.0|);
        forall k | 0 <= k < |steps| ensures SameShape(steps[k], ApplyRowsUpTo(steps, rows, i).0[k]) {
          SameShapeTransitive(steps[k], prev.0[k], ApplyRowsUpTo(steps, rows, i).0[k]);
        }
      }
    }
  }

  /**
   * A row that raises no error sets, in every step whose process it names
   * and whose slot is a quantity, the numeric value and the raw value
   * "<value> <unit>"; every other step is left as it was.
   */
  lemma {:induction false} ApplyRowEffect(steps: seq<Step>, row: QuantityRow, j: nat)
    requires j <= |steps|
    requires !ApplyRowUpTo(steps, row, j).1
    ensures var r := ApplyRowUpTo(steps, row, j).0;
      forall k :: 0 <= k < |steps| ==>
        (k < j && Matches(steps[k], row) ==>
           r[k] == steps[k].(slots := steps[k].slots[row.slotname := PatchSlot(steps[k].slots[row.slotname], row.value)])
           && "has_unit" in steps[k].slots[row.slotname].entries)
        && (!(k < j && Matches(steps[k], row)) ==> r[k] == steps[k])
  {
    if j > 0 {
      ApplyRowEffect(steps, row, j - 1);
    }
  }

  /** The key's step number: `int(key.split()[1])`. */
  function StepNumber(key: string): (r: Result<int>)
    ensures r.Err? ==> r.error.kind == IndexError || r.error.kind == ValueError
    ensures |Tokens(key)| < 2 <==> r.Err? && r.error.kind == IndexError
    ensures r.Ok? ==> ParseInt(Tokens(key)[1]) == Some(r.value)
  {
    var toks := Tokens(key);
    if |toks| < 2 then Err(Error(IndexError, [key]))
    else
      match ParseInt(toks[1])
      case None => Err(Error(ValueError, [key]))
      case Some(n) => Ok(n)
  }

  /** `Step <n>: ...` keys give back their number. */
  lemma {:induction false} StepNumberOfKey(n: nat, rest: string)
    requires rest == [] || IsSpace(rest[0])
    ensures StepNumber("Step " + NatToString(n) + rest) == Ok(n)
  {
    var digits := NatToString(n);
    ParseIntRoundTrip(n);
    assert IntToString(n) == digits;
    assert forall k :: 0 <= k < |digits| ==> !IsSpace(digits[k]) by {
      assert AllDigits(digits);
    }
    SecondToken(digits, rest);
  }

  /** The second token of `Step <word><rest>` is the word. */
  lemma SecondToken(word: string, rest: string)
    requires word != [] && forall k :: 0 <= k < |word| ==> !IsSpace(word[k])
    requires rest == [] || IsSpace(rest[0])
    ensures |Tokens("Step " + word + rest)| >= 2 && Tokens("Step " + word + rest)[1] == word
  {
    var head := "Step";
    assert forall k :: 0 <= k < |head| ==> !IsSpace(head[k]);
    assert "Step " + word + rest == head + (" " + (word + rest));
    WordAfterHead(head, word, rest);
  }

  /** In `<head> <word><rest>`, with `head` and `word` blank-free, the word is the second token. */
  lemma WordAfterHead(head: string, word: string, rest: string)
    requires head != [] && forall k :: 0 <= k < |head| ==> !IsSpace(head[k])
    requires word != [] && forall k :: 0 <= k < |word| ==> !IsSpace(word[k])
    requires rest == [] || IsSpace(rest[0])
    ensures |Tokens(head + (" " + (word + rest)))| >= 2 && Tokens(head + (" " + (word + rest)))[1] == word
  {
    var spaced := " " + (word + rest);
    var toks, inner := Tokens(head + spaced), Tokens(spaced);
    assert toks == [head] + inner && inner == [word] + Tokens(rest) by {
      SpacedWordTokens(word, rest);
      HeadTokens(head, spaced);
    }
    SecondOfCons(toks, inner, head, word, Tokens(rest));
  }

  /** The second element of `[head] + ([word] + tail)` is `word`. */
  lemma SecondOfCons(toks: seq<string>, inner: seq<string>, head: string, word: string, tail: seq<string>)
    requires toks == [head] + inner && inner == [word] + tail
    ensures |toks| >= 2 && toks[1] == word
  {
  }

  /** A blank-free head followed by a blank is the first token. */
  lemma HeadTokens(head: string, spaced: string)
    requires head != [] && forall k :: 0 <= k < |head| ==> !IsSpace(head[k])
    requires spaced != [] && IsSpace(spaced[0])
    ensures Tokens(head + spaced) == [head] + Tokens(spaced)
  {
    TokensCons(head, spaced);
  }

  /** After a leading blank, a blank-free word ended by a blank or the end is the first token. */
  lemma SpacedWordTokens(word: string, rest: string)
    requires word != [] && forall k :: 0 <= k < |word| ==> !IsSpace(word[k])
    requires rest == [] || IsSpace(rest[0])
    ensures Tokens(" " + (word + rest)) == [word] + Tokens(rest)
  {
    TokensCons(word, rest);
    TokensAfterSpace(word + rest);
  }

  /** A word followed by nothing or by a blank is the first token. */
  lemma {:induction false} TokensCons(w: string, rest: string)
    requires w != [] && forall k :: 0 <= k < |w| ==> !IsSpace(w[k])
    requires rest == [] || IsSpace(rest[0])
    ensures Tokens(w + rest) == [w] + Tokens(rest)
  {
    var s := w + rest;
    assert TrimLeft(s) == s;
    TokenLengthIs(s, |w|);
    assert s[..|w|] == w && s[|w|..] == rest;
  }

  /** A leading blank does not change the tokens. */
  lemma {:induction false} TokensAfterSpace(x: string)
    ensures Tokens(" " + x) == Tokens(x)
  {
    assert (" " + x)[1..] == x;
    assert TrimLeft(" " + x) == TrimLeft(x);
  }

  lemma {:induction false} TokenLengthIs(s: string, n: nat)
    requires 0 < n <= |s| && (n == |s| || IsSpace(s[n]))
    requires forall k :: 0 <= k < n ==> !IsSpace(s[k])
    ensures TokenLength(s) == n
  {
    if n > 1 {
      TokenLengthIs(s[1..], n - 1);
    }
  }

  /** The set of a step's output placeholders. */
  function Outs(s: Step): set<string>
  {
    set p | p in s.outputs
  }

  /** The set of a step's input placeholders. */
  function Ins(s: Step): set<string>
  {
    set p | p in s.inputs
  }

  /** Every placeholder some step of `m` outputs. */
  function OutsOf(m: seq<Step>): (r: set<string>)
    ensures forall i :: 0 <= i < |m| ==> Outs(m[i]) <= r
  {
    if m == [] then {} else OutsOf(m[..|m| - 1]) + Outs(m[|m| - 1])
  }

  /** A placeholder output by some step is output by one in particular. */
  lemma OutsOfWitness(m: seq<Step>, p: string) returns (i: nat)
    requires p in OutsOf(m)
    ensures i < |m| && p in Outs(m[i])
  {
    if p in Outs(m[|m| - 1]) {
      i := |m| - 1;
    } else {
      i := OutsOfWitness(m[..|m| - 1], p);
    }
  }

  predicate UniqueKeys(m: seq<Step>)
  {
    forall i, j :: 0 <= i < j < |m| ==> m[i].key != m[j].key
  }

  function KeySetOf(m: seq<Step>): set<string>
  {
    set s | s in m :: s.key
  }

  /** The step map after `s` is stored under its key: it replaces the entry
      with that key in place, or is appended. */
  function StoreStep(m: seq<Step>, s: Step): (r: seq<Step>)
    requires UniqueKeys(m)
    ensures UniqueKeys(r)
    ensures s in r
    ensures forall t :: t in r ==> t == s || (t in m && t.key != s.key)
    ensures forall t :: t in m && t.key != s.key ==> t in r
  {
    if m == [] then [s]
    else if m[0].key == s.key then [s] + m[1..]
    else
      var rest := StoreStep(m[1..], s);
      assert forall t :: t in rest ==> t.key != m[0].key;
      [m[0]] + rest
  }

  /**
   * `{step_key: step for step in steps ...}`: one entry per key, in the order
   * keys first appear, holding the last step with that key.
   */
  function StepMap(steps: seq<Step>): (m: seq<Step>)
    ensures UniqueKeys(m)
    ensures forall t :: t in m ==> t in steps
    ensures forall s :: s in steps ==> exists t :: t in m && t.key == s.key
  {
    if steps == [] then []
    else
      var prev := StepMap(steps[..|steps| - 1]);
      var last := steps[|steps| - 1];
      var m := StoreStep(prev, last);
      assert forall s :: s in steps ==> s in steps[..|steps| - 1] || s == last;
      m
  }

  /** Every step of the map's set of steps which produce a placeholder of `c` consumes only placeholders of `c` (among those the map produces). */
  predicate ClosedUnder(c: set<string>, m: seq<Step>)
  {
    forall i :: 0 <= i < |m| && Outs(m[i]) * c != {} ==> Ins(m[i]) * OutsOf(m) <= c
  }

  /** A set of placeholders that holds the producible targets and everything the steps producing its members consume. */
  predicate Closed(c: set<string>, m: seq<Step>, targets: set<string>)
  {
    targets * OutsOf(m) <= c && ClosedUnder(c, m)
  }

  /** The least closed set: the placeholders the targets depend on. */
  ghost predicate LeastClosed(r: set<string>, m: seq<Step>, targets: set<string>)
  {
    r <= OutsOf(m) && Closed(r, m, targets) && forall c :: Closed(c, m, targets) ==> r <= c
  }

  /** The least closed set is unique. */
  lemma LeastClosedUnique(r1: set<string>, r2: set<string>, m: seq<Step>, targets: set<string>)
    requires LeastClosed(r1, m, targets) && LeastClosed(r2, m, targets)
    ensures r1 == r2
  {
  }

  /**
   * Every required placeholder is a target or is consumed by a step that
   * produces a required placeholder.
   */
  lemma RequiredExplained(r: set<string>, m: seq<Step>, targets: set<string>)
    requires LeastClosed(r, m, targets)
    ensures forall p :: p in r ==> p in targets || exists i :: 0 <= i < |m| && Outs(m[i]) * r != {} && p in Ins(m[i])
  {
    var explained := set p | p in r && (p in targets || exists i :: 0 <= i < |m| && Outs(m[i]) * r != {} && p in Ins(m[i]));
    forall i | 0 <= i < |m| && Outs(m[i]) * explained != {} ensures Ins(m[i]) * OutsOf(m) <= explained {
      assert Outs(m[i]) * r != {};
      assert Ins(m[i]) * OutsOf(m) <= r;
    }
    assert Closed(explained, m, targets);
  }

  /** The target placeholders as a set. */
  function TargetSet(targets: seq<string>): set<string>
  {
    set t | t in targets
  }

  /** Nothing traced this round escapes any closed set holding what was required and traced before. */
  ghost predicate TracedWithin(m: seq<Step>, r0: set<string>, current: set<string>, toTrace: set<string>)
  {
    forall c :: ClosedUnder(c, m) && r0 + current * OutsOf(m) <= c ==> toTrace * OutsOf(m) <= c
  }

  /** The steps found so far: those producing a placeholder required before the round, and those
      among the first `j` of the map producing one traced in it. */
  ghost predicate FoundSoFar(m: seq<Step>, r0: set<string>, current: set<string>, j: nat, found: seq<Step>)
    requires j <= |m|
  {
    NoDuplicates(found)
    && forall s :: s in found <==> s in m && (Outs(s) * r0 != {} || (s in m[..j] && Outs(s) * current != {}))
  }

  lemma OutsOfPrefix(m: seq<Step>, j: nat)
    requires j < |m|
    ensures OutsOf(m[..j + 1]) == OutsOf(m[..j]) + Outs(m[j])
  {
    assert m[..j + 1][..j] == m[..j];
  }

  lemma TracedWithinStep(m: seq<Step>, r0: set<string>, current: set<string>, toTrace: set<string>, j: nat, required: set<string>)
    requires j < |m| && Outs(m[j]) * current != {}
    requires TracedWithin(m, r0, current, toTrace)
    ensures TracedWithin(m, r0, current, toTrace + (Ins(m[j]) - required))
  {
    forall c | ClosedUnder(c, m) && r0 + current * OutsOf(m) <= c
      ensures (toTrace + (Ins(m[j]) - required)) * OutsOf(m) <= c
    {
      assert Outs(m[j]) * c != {};
    }
  }

  lemma FoundSoFarStep(m: seq<Step>, r0: set<string>, current: set<string>, j: nat, found: seq<Step>)
    requires UniqueKeys(m) && j < |m|
    requires FoundSoFar(m, r0, current, j, found)
    ensures Outs(m[j]) * current == {} ==> FoundSoFar(m, r0, current, j + 1, found)
    ensures Outs(m[j]) * current != {} ==>
      FoundSoFar(m, r0, current, j + 1, if m[j] in found then found else found + [m[j]])
  {
    assert m[..j + 1] == m[..j] + [m[j]];
    forall s | s in m[..j + 1] && s != m[j] ensures s in m[..j] {
    }
  }

  /** When the round traces nothing new, a producing step's inputs are already required. */
  lemma SettledInputs(m: seq<Step>, r0: set<string>, current: set<string>, j: nat, required: set<string>)
    requires j < |m| && Outs(m[j]) * current != {} && r0 <= required
    requires forall i :: 0 <= i < |m| && Outs(m[i]) * r0 != {} ==> Ins(m[i]) * OutsOf(m) <= r0 + current
    ensures current * OutsOf(m) <= r0 ==> (Ins(m[j]) - required) * OutsOf(m) == {}
  {
    if current * OutsOf(m) <= r0 {
      assert Outs(m[j]) * r0 != {};
      assert Ins(m[j]) * OutsOf(m) <= r0 + current;
      assert Ins(m[j]) * OutsOf(m) <= r0 <= required;
    }
  }

  lemma UnionMeet(r0: set<string>, a: set<string>, b: set<string>, current: set<string>)
    ensures r0 + (a + b) * current == (r0 + a * current) + b * current
  {
  }

  /** The inputs of the producing steps before `j + 1` stay covered as the sets grow. */
  lemma InputsCoveredStep(m: seq<Step>, current: set<string>, j: nat, required0: set<string>, toTrace0: set<string>,
                          required: set<string>, toTrace: set<string>)
    requires j < |m| && required0 <= required && toTrace0 <= toTrace
    requires forall i :: 0 <= i < j && Outs(m[i]) * current != {} ==> Ins(m[i]) <= required0 + toTrace0
    requires Outs(m[j]) * current != {} ==> Ins(m[j]) <= required + toTrace
    ensures forall i :: 0 <= i < j + 1 && Outs(m[i]) * current != {} ==> Ins(m[i]) <= required + toTrace
  {
  }

  /**
   * One pass of the trace over the step map (the `for` loop of a round):
   * every step producing a placeholder traced in this round is found, the
   * placeholders it produces become required, and its inputs not yet
   * required are traced next.
   */
  method TraceRound(m: seq<Step>, r0: set<string>, current: set<string>, found0: seq<Step>)
    returns (required: set<string>, toTrace: set<string>, found: seq<Step>)
    requires UniqueKeys(m) && NoDuplicates(found0)
    requires forall s :: s in found0 <==> s in m && Outs(s) * r0 != {}
    requires forall i :: 0 <= i < |m| && Outs(m[i]) * r0 != {} ==> Ins(m[i]) * OutsOf(m) <= r0 + current
    ensures required == r0 + OutsOf(m) * current
    ensures forall i :: 0 <= i < |m| && Outs(m[i]) * required != {} ==> Ins(m[i]) * OutsOf(m) <= required + toTrace
    ensures TracedWithin(m, r0, current, toTrace)
    ensures current * OutsOf(m) <= r0 ==> toTrace * OutsOf(m) == {}
    ensures current * OutsOf(m) == {} ==> toTrace == {}
    ensures NoDuplicates(found) && forall s :: s in found <==> s in m && Outs(s) * required != {}
  {
    required, toTrace, found := r0, {}, found0;
    var j := 0;
    while j < |m|
      invariant 0 <= j <= |m|
      invariant required == r0 + OutsOf(m[..j]) * current
      invariant forall i :: 0 <= i < j && Outs(m[i]) * current != {} ==> Ins(m[i]) <= required + toTrace
      invariant TracedWithin(m, r0, current, toTrace)
      invariant current * OutsOf(m) <= r0 ==> toTrace * OutsOf(m) == {}
      invariant current * OutsOf(m) == {} ==> toTrace == {}
      invariant FoundSoFar(m, r0, current, j, found)
    {
      var s := m[j];
      ghost var required0, toTrace0 := required, toTrace;
      OutsOfPrefix(m, j);
      UnionMeet(r0, OutsOf(m[..j]), Outs(s), current);
      FoundSoFarStep(m, r0, current, j, found);
      var matching := Outs(s) * current;
      if matching != {} {
        if s !in found {
          found := found + [s];
        }
        required := required + matching;
        TracedWithinStep(m, r0, current, toTrace, j, required);
        SettledInputs(m, r0, current, j, required);
        toTrace := toTrace + (Ins(s) - required);
      }
      InputsCoveredStep(m, current, j, required0, toTrace0, required, toTrace);
      j := j + 1;
    }
    assert m[..j] == m;
    forall i | 0 <= i < |m| && Outs(m[i]) * required != {}
      ensures Ins(m[i]) * OutsOf(m) <= required + toTrace
    {
      if Outs(m[i]) * current == {} {
        assert Outs(m[i]) * r0 != {};
      }
    }
  }

  lemma ShrinkingRemainder(u: set<string>, a: set<string>, b: set<string>, p: string)
    requires a <= b && p in b && p !in a && p in u
    ensures |u - b| < |u - a|
  {
    var x := u - b;
    var y := u - a;
    assert y == x + (y - x);
    assert x * (y - x) == {};
    assert p in y - x;
  }

  /**
   * The backward trace of `update_sample_outputs`: from the target
   * placeholders, the steps that produce a traced placeholder are kept and
   * their inputs traced in turn, until nothing is left to trace. The
   * placeholders found are the least closed set, and the steps kept are
   * exactly the distinct steps that produce one of them.
   */
  method Trace(m: seq<Step>, targets: seq<string>) returns (required: set<string>, found: seq<Step>)
    requires UniqueKeys(m)
    ensures LeastClosed(required, m, TargetSet(targets))
    ensures NoDuplicates(found) && forall s :: s in found <==> s in m && Outs(s) * required != {}
  {
    ghost var u := OutsOf(m);
    ghost var t := TargetSet(targets);
    found := [];
    required := {};
    var toTrace := set x | x in targets;
    while toTrace != {}
      invariant required <= u
      invariant forall c :: Closed(c, m, t) ==> required <= c && toTrace * u <= c
      invariant t * u <= required + toTrace
      invariant forall i :: 0 <= i < |m| && Outs(m[i]) * required != {} ==> Ins(m[i]) * u <= required + toTrace
      invariant NoDuplicates(found) && forall s :: s in found <==> s in m && Outs(s) * required != {}
      decreases TraceMeasure(u, required, toTrace)
    {
      var current := toTrace;
      ghost var r0 := required;
      required, toTrace, found := TraceRound(m, required, current, found);
      MinimalAfterRound(m, t, r0, current, required, toTrace);
      RoundProgress(u, r0, current, required, toTrace);
    }
  }

  /** What is left to do in the trace: twice the placeholders not yet required, plus
      two while something producible is traced, one while only unproducible ones are. */
  function TraceMeasure(u: set<string>, required: set<string>, toTrace: set<string>): nat
  {
    2 * |u - required| + (if toTrace == {} then 0 else if toTrace * u == {} then 1 else 2)
  }

  /** Each round either requires a new placeholder or leaves nothing producible to trace. */
  lemma RoundProgress(u: set<string>, r0: set<string>, current: set<string>, required: set<string>, toTrace: set<string>)
    requires current != {} && r0 <= u
    requires required == r0 + u * current
    requires current * u <= r0 ==> toTrace * u == {}
    requires current * u == {} ==> toTrace == {}
    ensures TraceMeasure(u, required, toTrace) < TraceMeasure(u, r0, current)
  {
    if !(current * u <= r0) {
      var p :| p in current * u && p !in r0;
      ShrinkingRemainder(u, r0, required, p);
    } else {
      assert required == r0;
    }
  }

  /** The placeholders required and traced after a round lie in every closed set. */
  lemma MinimalAfterRound(m: seq<Step>, t: set<string>, r0: set<string>, current: set<string>,
                          required: set<string>, toTrace: set<string>)
    requires forall c :: Closed(c, m, t) ==> r0 <= c && current * OutsOf(m) <= c
    requires required == r0 + OutsOf(m) * current
    requires TracedWithin(m, r0, current, toTrace)
    ensures forall c :: Closed(c, m, t) ==> required <= c && toTrace * OutsOf(m) <= c
  {
  }

  /** A kept step's outputs cut down to the required placeholders. */
  function Prune(s: Step, required: set<string>): (r: Step)
    ensures r.key == s.key && r.inputs == s.inputs && r.slots == s.slots && r.processType == s.processType
    ensures NoDuplicates(r.outputs) && Outs(r) == Outs(s) * required
  {
    s.(outputs := Dedup(Filter(s.outputs, required)))
  }

  function Filter(ps: seq<string>, keep: set<string>): (r: seq<string>)
    ensures forall p :: p in r <==> p in ps && p in keep
  {
    if ps == [] then []
    else (if ps[0] in keep then [ps[0]] else []) + Filter(ps[1..], keep)
  }

  /** The steps of the map that produce a required placeholder, in map order. */
  function Producing(m: seq<Step>, required: set<string>): (r: seq<Step>)
    ensures forall x :: x in r <==> x in m && Outs(x) * required != {}
  {
    if m == [] then []
    else (if Outs(m[0]) * required != {} then [m[0]] else []) + Producing(m[1..], required)
  }

  /** The steps of the map that produce a required placeholder, with pruned outputs. */
  function Kept(m: seq<Step>, required: set<string>): (r: seq<Step>)
    ensures |r| == |Producing(m, required)|
    ensures forall i :: 0 <= i < |r| ==> r[i] == Prune(Producing(m, required)[i], required)
  {
    var p := Producing(m, required);
    seq(|p|, i requires 0 <= i < |p| => Prune(p[i], required))
  }

  /** A kept step is the pruned form of a step of the map that produces a required placeholder. */
  lemma KeptSource(m: seq<Step>, required: set<string>, x: Step) returns (s: Step)
    requires x in Kept(m, required)
    ensures s in m && Outs(s) * required != {} && x == Prune(s, required)
  {
    var k := KeptIndex(Kept(m, required), x);
    s := Producing(m, required)[k];
  }

  /** Every step of the map that produces a required placeholder is kept, pruned. */
  lemma KeptHas(m: seq<Step>, required: set<string>, s: Step)
    requires s in m && Outs(s) * required != {}
    ensures Prune(s, required) in Kept(m, required)
  {
    var k := KeptIndex(Producing(m, required), s);
    assert Kept(m, required)[k] == Prune(s, required);
  }

  /** Every kept step's new outputs are a non-empty, duplicate-free subset of its original outputs,
      namely the required placeholders it produced. */
  lemma KeptOutputs(m: seq<Step>, required: set<string>, x: Step)
    requires x in Kept(m, required)
    ensures NoDuplicates(x.outputs) && Outs(x) != {}
    ensures exists s :: s in m && x.key == s.key && Outs(x) == Outs(s) * required && Outs(x) <= Outs(s)
  {
    var s := KeptSource(m, required, x);
  }

  /** The processed-sample outlines whose placeholder is required, in their original order. */
  function FilterSamples(samples: seq<SampleOutline>, required: set<string>): (r: seq<SampleOutline>)
    ensures |r| <= |samples|
    ensures forall x :: x in r <==> x in samples && x.placeholder in required
  {
    if samples == [] then []
    else (if samples[0].placeholder in required then [samples[0]] else []) + FilterSamples(samples[1..], required)
  }

  /** Steps in non-decreasing order of their step number. */
  predicate SortedByNumber(steps: seq<Step>)
  {
    (forall i :: 0 <= i < |steps| ==> StepNumber(steps[i].key).Ok?)
    && forall i, j :: 0 <= i < j < |steps| ==> StepNumber(steps[i].key).value <= StepNumber(steps[j].key).value
  }

  /** The steps of the outline after an interrupted pruning: each step the map holds for its key
      (the last with that key) that was kept has its outputs pruned in place; the list itself is
      the original one. */
  function PrunedInPlace(steps: seq<Step>, required: set<string>): (r: seq<Step>)
    ensures |r| == |steps|
  {
    if steps == [] then []
    else
      var s := steps[0];
      [if !HasKey(steps[1..], s.key) && Outs(s) * required != {} then Prune(s, required) else s]
      + PrunedInPlace(steps[1..], required)
  }

  /** Some step of the list has the key. */
  predicate HasKey(steps: seq<Step>, key: string)
  {
    steps != [] && (steps[0].key == key || HasKey(steps[1..], key))
  }

  /** The final outputs of a list of steps: produced by one of them and consumed by none. */
  function FinalOutputs(steps: seq<Step>): set<string>
  {
    OutsOf(steps) - InsOf(steps)
  }

  function InsOf(steps: seq<Step>): (r: set<string>)
    ensures forall i :: 0 <= i < |steps| ==> Ins(steps[i]) <= r
    ensures forall p :: p in r ==> exists i :: 0 <= i < |steps| && p in Ins(steps[i])
  {
    if steps == [] then {}
    else
      var r := InsOf(steps[..|steps| - 1]) + Ins(steps[|steps| - 1]);
      assert forall i :: 0 <= i < |steps| - 1 ==> steps[..|steps| - 1][i] == steps[i];
      r
  }

  /**
   * When every target is produced by some step and no kept step consumes a
   * target, the final outputs of the pruned outline are exactly the targets.
   */
  lemma FinalOutputsAreTargets(m: seq<Step>, required: set<string>, targets: set<string>, kept: seq<Step>)
    requires LeastClosed(required, m, targets)
    requires targets <= OutsOf(m)
    requires forall s :: s in m && Outs(s) * required != {} ==> Ins(s) * targets == {}
    requires forall x :: x in kept <==> x in Kept(m, required)
    ensures FinalOutputs(kept) == targets
  {
    forall p | p in targets ensures p in FinalOutputs(kept) {
      TargetIsFinal(m, required, targets, kept, p);
    }
    forall p | p in FinalOutputs(kept) ensures p in targets {
      FinalIsTarget(m, required, targets, kept, p);
    }
  }

  lemma TargetIsFinal(m: seq<Step>, required: set<string>, targets: set<string>, kept: seq<Step>, p: string)
    requires LeastClosed(required, m, targets)
    requires p in targets && targets <= OutsOf(m)
    requires forall s :: s in m && Outs(s) * required != {} ==> Ins(s) * targets == {}
    requires forall x :: x in kept <==> x in Kept(m, required)
    ensures p in FinalOutputs(kept)
  {
    var i := TargetProducer(m, required, targets, p);
    KeptHas(m, required, m[i]);
    var k := KeptIndex(kept, Prune(m[i], required));
    assert p in Outs(kept[k]);
    TargetNotConsumed(m, required, targets, kept, p);
  }

  lemma TargetProducer(m: seq<Step>, required: set<string>, targets: set<string>, p: string) returns (i: nat)
    requires LeastClosed(required, m, targets)
    requires p in targets && targets <= OutsOf(m)
    ensures i < |m| && p in Outs(m[i]) * required
  {
    assert Closed(required, m, targets);
    assert p in targets * OutsOf(m);
    i := OutsOfWitness(m, p);
  }

  lemma TargetNotConsumed(m: seq<Step>, required: set<string>, targets: set<string>, kept: seq<Step>, p: string)
    requires p in targets
    requires forall s :: s in m && Outs(s) * required != {} ==> Ins(s) * targets == {}
    requires forall x :: x in kept ==> x in Kept(m, required)
    ensures p !in InsOf(kept)
  {
    forall j | 0 <= j < |kept| ensures p !in Ins(kept[j]) {
      var s := KeptSource(m, required, kept[j]);
      assert Ins(kept[j]) == Ins(s);
      assert Ins(s) * targets == {};
      assert p !in Ins(s) * targets;
    }
  }

  lemma FinalIsTarget(m: seq<Step>, required: set<string>, targets: set<string>, kept: seq<Step>, p: string)
    requires LeastClosed(required, m, targets)
    requires forall x :: x in kept <==> x in Kept(m, required)
    requires p in FinalOutputs(kept)
    ensures p in targets
  {
    RequiredExplained(required, m, targets);
    var k := OutsOfWitness(kept, p);
    var s := KeptSource(m, required, kept[k]);
    assert p in required;
    if p !in targets {
      var i :| 0 <= i < |m| && Outs(m[i]) * required != {} && p in Ins(m[i]);
      KeptHas(m, required, m[i]);
      var k2 := KeptIndex(kept, Prune(m[i], required));
    }
  }

  lemma KeptIndex(kept: seq<Step>, x: Step) returns (k: nat)
    requires x in kept
    ensures k < |kept| && kept[k] == x
  {
    k :| 0 <= k < |kept| && kept[k] == x;
  }

  lemma DistinctSameElementsLength(a: seq<Step>, b: seq<Step>)
    requires NoDuplicates(a) && NoDuplicates(b)
    requires forall x :: x in a <==> x in b
    ensures |a| == |b|
  {
    DistinctCard(a);
    DistinctCard(b);
    assert (set x | x in a) == (set x | x in b);
  }

  lemma {:induction false} DistinctCard(a: seq<Step>)
    requires NoDuplicates(a)
    ensures |set x | x in a| == |a|
  {
    if a != [] {
      var init := a[..|a| - 1];
      assert NoDuplicates(init);
      DistinctCard(init);
      assert (set x | x in a) == (set x | x in init) + {a[|a| - 1]};
    }
  }

  lemma ProducingDistinct(m: seq<Step>, required: set<string>)
    requires UniqueKeys(m)
    ensures NoDuplicates(Producing(m, required))
  {
    if m != [] {
      ProducingDistinct(m[1..], required);
      assert forall x :: x in Producing(m[1..], required) ==> x in m[1..] && x.key != m[0].key;
    }
  }

  /**
   * The sort keys of the found steps, in order, each paired with the step
   * with its outputs pruned; or the position of the first step whose key has
   * no number.
   */
  method NumberSteps(found: seq<Step>, required: set<string>) returns (numbered: seq<(int, Step)>, bad: Option<nat>)
    ensures bad.Some? ==> bad.value < |found| && StepNumber(found[bad.value].key).Err?
    ensures bad.None? ==> |numbered| == |found|
    ensures bad.None? ==> forall k :: 0 <= k < |found| ==> numbered[k].1 == Prune(found[k], required)
    ensures bad.None? ==> forall k :: 0 <= k < |found| ==> StepNumber(found[k].key) == Ok(numbered[k].0)
  {
    numbered := [];
    var i := 0;
    while i < |found|
      invariant 0 <= i <= |found|
      invariant |numbered| == i
      invariant forall k :: 0 <= k < i ==> numbered[k].1 == Prune(found[k], required)
      invariant forall k :: 0 <= k < i ==> StepNumber(found[k].key) == Ok(numbered[k].0)
    {
      var n := StepNumber(found[i].key);
      if n.Err? {
        return numbered, Some(i);
      }
      NumberedStep(found, required, numbered, i, n.value);
      numbered := numbered + [(n.value, Prune(found[i], required))];
      i := i + 1;
    }
    bad := None;
  }

  /** One more numbered step keeps every earlier one. */
  lemma NumberedStep(found: seq<Step>, required: set<string>, numbered: seq<(int, Step)>, i: nat, n: int)
    requires i < |found| && |numbered| == i && StepNumber(found[i].key) == Ok(n)
    requires forall k :: 0 <= k < i ==> numbered[k].1 == Prune(found[k], required)
    requires forall k :: 0 <= k < i ==> StepNumber(found[k].key) == Ok(numbered[k].0)
    ensures var next := numbered + [(n, Prune(found[i], required))];
      (forall k :: 0 <= k < i + 1 ==> next[k].1 == Prune(found[k], required))
      && (forall k :: 0 <= k < i + 1 ==> StepNumber(found[k].key) == Ok(next[k].0))
  {
  }

  /** The steps of numbered steps. */
  function Seconds(ps: seq<(int, Step)>): (r: seq<Step>)
    ensures |r| == |ps| && forall k :: 0 <= k < |ps| ==> r[k] == ps[k].1
  {
    seq(|ps|, k requires 0 <= k < |ps| => ps[k].1)
  }

  /** Steps paired with their numbers and sorted by them are sorted by step number. */
  lemma SortedSeconds(sorted: seq<(int, Step)>, numbered: seq<(int, Step)>, found: seq<Step>, required: set<string>)
    requires KeySorted(sorted) && multiset(sorted) == multiset(numbered)
    requires |numbered| == |found|
    requires forall k :: 0 <= k < |found| ==> numbered[k].1 == Prune(found[k], required)
    requires forall k :: 0 <= k < |found| ==> StepNumber(found[k].key) == Ok(numbered[k].0)
    ensures SortedByNumber(Seconds(sorted))
  {
    forall k | 0 <= k < |sorted| ensures StepNumber(sorted[k].1.key) == Ok(sorted[k].0) {
      assert sorted[k] in multiset(numbered);
      var k2 :| 0 <= k2 < |numbered| && numbered[k2] == sorted[k];
      assert sorted[k].1.key == found[k2].key;
    }
  }

  /** The steps of a permutation of the numbered, pruned found steps are exactly the kept ones. */
  lemma SecondsAreKept(m: seq<Step>, required: set<string>, found: seq<Step>, numbered: seq<(int, Step)>,
                       sorted: seq<(int, Step)>)
    requires forall s :: s in found <==> s in m && Outs(s) * required != {}
    requires |found| == |Kept(m, required)| && |numbered| == |found|
    requires forall k :: 0 <= k < |found| ==> numbered[k].1 == Prune(found[k], required)
    requires multiset(sorted) == multiset(numbered)
    ensures |Seconds(sorted)| == |Kept(m, required)|
    ensures forall x :: x in Seconds(sorted) <==> x in Kept(m, required)
  {
    var steps := Seconds(sorted);
    assert |sorted| == |numbered| by {
      assert |multiset(sorted)| == |multiset(numbered)|;
    }
    forall x | x in steps ensures x in Kept(m, required) {
      var k :| 0 <= k < |steps| && steps[k] == x;
      assert sorted[k] in multiset(numbered);
      var k2 :| 0 <= k2 < |numbered| && numbered[k2] == sorted[k];
      KeptHas(m, required, found[k2]);
    }
    forall x | x in Kept(m, required) ensures x in steps {
      var s := KeptSource(m, required, x);
      var k :| 0 <= k < |found| && found[k] == s;
      assert numbered[k] in multiset(sorted);
      var k2 :| 0 <= k2 < |sorted| && sorted[k2] == numbered[k];
      assert steps[k2] == x;
    }
  }

  /** The kept steps, each exactly once, in order of step number. */
  ghost predicate ArrangedKept(steps: seq<Step>, m: seq<Step>, required: set<string>)
  {
    SortedByNumber(steps)
    && |steps| == |Kept(m, required)|
    && (forall x :: x in steps <==> x in Kept(m, required))
  }

  lemma SortedKept(m: seq<Step>, required: set<string>, found: seq<Step>, numbered: seq<(int, Step)>,
                   sorted: seq<(int, Step)>)
    requires forall s :: s in found <==> s in m && Outs(s) * required != {}
    requires |found| == |Kept(m, required)| && |numbered| == |found|
    requires forall k :: 0 <= k < |found| ==> numbered[k].1 == Prune(found[k], required)
    requires forall k :: 0 <= k < |found| ==> StepNumber(found[k].key) == Ok(numbered[k].0)
    requires KeySorted(sorted) && multiset(sorted) == multiset(numbered)
    ensures ArrangedKept(Seconds(sorted), m, required)
  {
    SortedSeconds(sorted, numbered, found, required);
    SecondsAreKept(m, required, found, numbered, sorted);
  }

  /**
   * The outcome of `update_sample_outputs` on the lists `steps` and
   * `samples`: `required` is the least set of placeholders closed under the
   * steps producing them; on success the new steps are the kept steps,
   * pruned and sorted by step number, and the new samples those of required
   * placeholders; a step key without a number raises IndexError or
   * ValueError for a kept step, after the outputs were cut in place, and
   * leaves the samples as they were.
   */
  /** Some kept step's key has no step number, and reading it raises `e`. */
  ghost predicate NumberRaised(m: seq<Step>, required: set<string>, e: Error)
  {
    exists x :: x in Kept(m, required) && StepNumber(x.key) == Err(e)
  }

  ghost predicate SampleOutputsUpdated(steps: seq<Step>, samples: seq<SampleOutline>, targets: seq<string>,
                                       err: Option<Error>, newSteps: seq<Step>, newSamples: seq<SampleOutline>,
                                       required: set<string>)
  {
    LeastClosed(required, StepMap(steps), TargetSet(targets))
    && (err.None? ==>
      ArrangedKept(newSteps, StepMap(steps), required)
      && newSamples == FilterSamples(samples, required))
    && (err.Some? ==>
      (err.value.kind == IndexError || err.value.kind == ValueError)
      && NumberRaised(StepMap(steps), required, err.value)
      && newSteps == PrunedInPlace(steps, required)
      && newSamples == samples)
  }

  /**
   * `update_sample_outputs`: keeps the steps the target placeholders
   * depend on, cuts each kept step's outputs down to the required
   * placeholders, orders the kept steps by step number and keeps the
   * processed-sample outlines of required placeholders, in order. A step
   * key without a number raises IndexError or ValueError after the outputs
   * were cut in place, and the lists are not replaced.
   */
  method UpdateSampleOutputsOf(steps: seq<Step>, samples: seq<SampleOutline>, targets: seq<string>)
    returns (err: Option<Error>, newSteps: seq<Step>, newSamples: seq<SampleOutline>, ghost required: set<string>)
    ensures SampleOutputsUpdated(steps, samples, targets, err, newSteps, newSamples, required)
  {
    var m := StepMap(steps);
    var requiredOutputs, found := Trace(m, targets);
    required := requiredOutputs;
    ProducingDistinct(m, requiredOutputs);
    DistinctSameElementsLength(found, Producing(m, requiredOutputs));
    var numbered, bad := NumberSteps(found, requiredOutputs);
    if bad.Some? {
      KeptHas(m, requiredOutputs, found[bad.value]);
      err := Some(StepNumber(found[bad.value].key).error);
      newSteps := PrunedInPlace(steps, requiredOutputs);
      newSamples := samples;
      return;
    }
    var sorted := SortByKey(numbered);
    SortedKept(m, requiredOutputs, found, numbered, sorted);
    newSteps := Seconds(sorted);
    newSamples := FilterSamples(samples, requiredOutputs);
    err := None;
  }

  /** A material-processing outline, changed in place. */
  class Outline {
    var steps: seq<Step>
    var processedSamples: seq<SampleOutline>

    constructor (steps: seq<Step>, processedSamples: seq<SampleOutline>)
      ensures this.steps == steps && this.processedSamples == processedSamples
    {
      this.steps := steps;
      this.processedSamples := processedSamples;
    }

    /**
     * `update_quantity_value`: every row, in order, patches the matching
     * quantity slot of every step; the first slot without a unit raises
     * KeyError, leaving the writes made before it in place.
     */
    method UpdateQuantityValue(rows: seq<QuantityRow>) returns (err: Option<Error>)
      modifies this
      ensures (steps, err) == ApplyRowsUpTo(old(steps), rows, |rows|)
      ensures processedSamples == old(processedSamples)
    {
      var i := 0;
      err := None;
      while i < |rows|
        invariant 0 <= i <= |rows|
        invariant (steps, None) == ApplyRowsUpTo(old(steps), rows, i)
        invariant processedSamples == old(processedSamples)
      {
        var stopped := PatchRow(rows[i]);
        if stopped {
          ApplyRowsStops(old(steps), rows, i + 1, |rows|);
          err := Some(Error(KeyError, ["has_unit"]));
          return;
        }
        i := i + 1;
      }
    }

    /**
     * One row of `update_quantity_value`: patches every step in order and
     * stops at the first slot without a unit.
     */
    method PatchRow(row: QuantityRow) returns (stopped: bool)
      modifies this
      ensures (steps, stopped) == ApplyRowUpTo(old(steps), row, |old(steps)|)
      ensures processedSamples == old(processedSamples)
    {
      var j := 0;
      while j < |steps|
        invariant |steps| == |old(steps)| && 0 <= j <= |steps|
        invariant (steps, false) == ApplyRowUpTo(old(steps), row, j)
        invariant processedSamples == old(processedSamples)
      {
        var patched := PatchStep(steps[j], row);
        steps := steps[j := patched.0];
        if patched.1 {
          ApplyRowStops(old(steps), row, j + 1, |old(steps)|);
          return true;
        }
        j := j + 1;
      }
      return false;
    }

    /** `update_sample_outputs` on this outline, in place. */
    method UpdateSampleOutputs(targets: seq<string>) returns (err: Option<Error>, ghost required: set<string>)
      modifies this
      ensures SampleOutputsUpdated(old(steps), old(processedSamples), targets, err, steps, processedSamples, required)
    {
      var steps0, samples0 := steps, processedSamples;
      var newSteps, newSamples;
      err, newSteps, newSamples, required := UpdateSampleOutputsOf(steps0, samples0, targets);
      steps, processedSamples := newSteps, newSamples;
    }

    /**
     * `yaml_generation` on an outline already loaded into this object:
     * when sample rows are given, their quantities are patched in first
     * and a KeyError there ends the call; then the placeholders without a
     * target output are pruned.
     */
    method YamlGeneration(sampleRows: Option<seq<QuantityRow>>, targets: seq<string>)
      returns (err: Option<Error>, ghost required: set<string>)
      modifies this
      ensures sampleRows.None? ==>
        SampleOutputsUpdated(old(steps), old(processedSamples), targets, err, steps, processedSamples, required)
      ensures sampleRows.Some? && ApplyRowsUpTo(old(steps), sampleRows.value, |sampleRows.value|).1.Some? ==>
        err == ApplyRowsUpTo(old(steps), sampleRows.value, |sampleRows.value|).1
        && steps == ApplyRowsUpTo(old(steps), sampleRows.value, |sampleRows.value|).0
        && processedSamples == old(processedSamples)
      ensures sampleRows.Some? && ApplyRowsUpTo(old(steps), sampleRows.value, |sampleRows.value|).1.None? ==>
        SampleOutputsUpdated(ApplyRowsUpTo(old(steps), sampleRows.value, |sampleRows.value|).0,
                             old(processedSamples), targets, err, steps, processedSamples, required)
    {
      required := {};
      if sampleRows.Some? {
        err := UpdateQuantityValue(sampleRows.value);
        if err.Some? {
          return;
        }
      }
      err, required := UpdateSampleOutputs(targets);
    }
  }
}
