/**
 * Material-processing generation for one biosample: walking the pruned YAML
 * outline step by step, minting a processed sample for every step output,
 * resolving `<placeholder>` references in string slots to the IDs minted so
 * far, recording one material-processing record per step, and finally
 * mapping the final processed samples back to raw data files through
 * change-sheet and workflow-sheet rows.
 */
module MaterialProcessing {
  import opened Common
  import opened Frames
  import opened YamlSpecifier
  import opened ChangesheetGenerator

  // ---------------------------------------------------------------------
  // `<placeholder>` references in strings
  // ---------------------------------------------------------------------

  /** Where the lazy `(.*?)>` after a `<` stops: the first `>` of `t`, provided no newline comes first. */
  function CloseAt(t: string): (r: Option<nat>)
    ensures r.Some? ==> r.value < |t| && t[r.value] == '>' && '>' !in t[..r.value] && '\n' !in t[..r.value]
    ensures r.None? ==> forall k :: 0 <= k < |t| && t[k] == '>' ==> '\n' in t[..k]
  {
    if t == [] || t[0] == '\n' then None
    else if t[0] == '>' then Some(0)
    else
      match CloseAt(t[1..])
      case None => None
      case Some(k) => assert t[1..][..k] == t[1..k + 1]; Some(k + 1)
  }

  /**
   * `re.findall(r"<(.*?)>", s)`: scanning left to right, every `<` that is
   * closed by a `>` on the same line yields the text between them, and the
   * scan resumes after that `>`.
   */
  function FindRefs(s: string): (refs: seq<string>)
    ensures forall r :: r in refs ==> '>' !in r && '\n' !in r
    ensures '<' !in s ==> refs == []
    decreases |s|
  {
    if s == [] then []
    else if s[0] == '<' && CloseAt(s[1..]).Some? then
      var k := CloseAt(s[1..]).value;
      assert s[1..][..k] == s[1..k + 1];
      [s[1..k + 1]] + FindRefs(s[k + 2..])
    else
      FindRefs(s[1..])
  }

  /** `s.replace(pat, rep)`: every non-overlapping occurrence of `pat`, left to right. */
  function ReplaceAll(s: string, pat: string, rep: string): string
    requires pat != []
    decreases |s|
  {
    if |s| < |pat| then s
    else if s[..|pat|] == pat then rep + ReplaceAll(s[|pat|..], pat, rep)
    else [s[0]] + ReplaceAll(s[1..], pat, rep)
  }

  /** The text `<name>` a reference is written as. */
  function Marker(name: string): (m: string)
    ensures |m| == |name| + 2 && m[0] == '<' && m[1..|name| + 1] == name && m[|name| + 1] == '>'
  {
    "<" + name + ">"
  }

  /**
   * A template: literal text and references. This is the shape the outline's
   * string slots are written in; it is what the substitution's
   * correctness is stated over.
   */
  datatype Part = Lit(text: string) | Ref(name: string)

  function RenderPart(p: Part): string
  {
    match p
    case Lit(t) => t
    case Ref(n) => Marker(n)
  }

  function Render(parts: seq<Part>): string
  {
    if parts == [] then "" else RenderPart(parts[0]) + Render(parts[1..])
  }

  /** Literal text holds no `<`, and a reference name no `<`, `>` or newline. */
  predicate WellFormedTemplate(parts: seq<Part>)
  {
    forall i :: 0 <= i < |parts| ==>
      match parts[i]
      case Lit(t) => '<' !in t
      case Ref(n) => '<' !in n && '>' !in n && '\n' !in n
  }

  /** The names referenced, in order. */
  function Names(parts: seq<Part>): (ns: seq<string>)
    ensures forall n :: n in ns <==> Ref(n) in parts
  {
    if parts == [] then []
    else
      (if parts[0].Ref? then [parts[0].name] else []) + Names(parts[1..])
  }

  lemma {:induction false} CloseAtName(n: string, rest: string)
    requires '>' !in n && '\n' !in n
    ensures CloseAt(n + ">" + rest) == Some(|n|)
    decreases |n|
  {
    if n != [] {
      assert (n + ">" + rest)[1..] == n[1..] + ">" + rest;
      CloseAtName(n[1..], rest);
    }
  }

  lemma {:induction false} FindRefsSkip(t: string, rest: string)
    requires '<' !in t
    ensures FindRefs(t + rest) == FindRefs(rest)
    decreases |t|
  {
    if t != [] {
      var s := t + rest;
      assert s[0] == t[0] && t[0] in t;
      assert s[1..] == t[1..] + rest;
      FindRefsSkip(t[1..], rest);
    } else {
      assert t + rest == rest;
    }
  }

  /** Scanning a rendered template finds exactly its references, in order. */
  lemma {:induction false} FindRefsRendered(parts: seq<Part>)
    requires WellFormedTemplate(parts)
    ensures FindRefs(Render(parts)) == Names(parts)
  {
    if parts != [] {
      assert WellFormedTemplate(parts[1..]) by {
        forall i | 0 <= i < |parts[1..]| ensures parts[1..][i] == parts[i + 1] { }
      }
      FindRefsRendered(parts[1..]);
      var rest := Render(parts[1..]);
      match parts[0]
      case Lit(t) =>
        assert '<' !in t by { assert parts[0] == parts[0]; }
        FindRefsSkip(t, rest);
      case Ref(n) =>
        var s := Marker(n) + rest;
        assert '>' !in n && '\n' !in n by { assert parts[0] == parts[0]; }
        assert s[1..] == n + ">" + rest;
        CloseAtName(n, rest);
        assert s[1..|n| + 1] == n;
        assert s[|n| + 2..] == rest;
    }
  }

  lemma {:induction false} ReplaceSkip(t: string, rest: string, pat: string, rep: string)
    requires pat != [] && pat[0] == '<' && '<' !in t
    ensures ReplaceAll(t + rest, pat, rep) == t + ReplaceAll(rest, pat, rep)
    decreases |t|
  {
    if t != [] {
      var s := t + rest;
      assert s[0] == t[0] && t[0] in t;
      assert s[1..] == t[1..] + rest;
      ReplaceSkip(t[1..], rest, pat, rep);
      if |s| < |pat| {
        assert |rest| < |pat|;
      } else {
        assert s[..|pat|][0] == s[0];
        assert [t[0]] + t[1..] == t;
      }
    } else {
      assert t + rest == rest;
    }
  }

  /** A reference to another name is not an occurrence of `<name>`. */
  lemma MarkerMismatch(m: string, n: string, rest: string)
    requires m != n && '>' !in m && '>' !in n
    requires |Marker(n)| <= |Marker(m) + rest|
    ensures (Marker(m) + rest)[..|Marker(n)|] != Marker(n)
  {
    var s := Marker(m) + rest;
    var pat := Marker(n);
    var k: nat;
    if |m| < |n| {
      k := |m| + 1;
      assert s[k] == '>' && pat[k] == n[|m|] && n[|m|] in n;
    } else if |m| > |n| {
      k := |n| + 1;
      assert s[k] == m[|n|] && pat[k] == '>' && m[|n|] in m;
    } else {
      var j :| 0 <= j < |m| && m[j] != n[j];
      k := j + 1;
      assert s[k] == m[j] && pat[k] == n[j];
    }
    assert s[..|pat|][k] == s[k];
  }

  /** Every reference to `n` replaced by the literal `id`. */
  function ReplaceRef(parts: seq<Part>, n: string, id: string): (r: seq<Part>)
    ensures |r| == |parts|
  {
    seq(|parts|, i requires 0 <= i < |parts| => if parts[i] == Ref(n) then Lit(id) else parts[i])
  }

  /** Text that starts with `<n>` has that occurrence replaced first. */
  lemma ReplaceHeadSame(n: string, id: string, rest: string)
    ensures ReplaceAll(Marker(n) + rest, Marker(n), id) == id + ReplaceAll(rest, Marker(n), id)
  {
    var s := Marker(n) + rest;
    assert s[..|Marker(n)|] == Marker(n);
    assert s[|Marker(n)|..] == rest;
  }

  /** One step of `ReplaceAll` where the text does not start with the pattern. */
  lemma ReplaceAllSkipOne(s: string, pat: string, rep: string)
    requires pat != [] && |pat| <= |s| && s[..|pat|] != pat
    ensures ReplaceAll(s, pat, rep) == [s[0]] + ReplaceAll(s[1..], pat, rep)
  {
  }

  /** Text shorter than the pattern is left as it is. */
  lemma ReplaceAllShort(s: string, pat: string, rep: string)
    requires pat != [] && |s| < |pat|
    ensures ReplaceAll(s, pat, rep) == s
  {
  }

  /** Text that starts with a reference `<m>` to another name keeps that reference. */
  lemma ReplaceHeadOther(m: string, n: string, id: string, rest: string)
    requires m != n && '>' !in n && '<' !in m && '>' !in m
    ensures ReplaceAll(Marker(m) + rest, Marker(n), id) == Marker(m) + ReplaceAll(rest, Marker(n), id)
  {
    var pat := Marker(n);
    var s := Marker(m) + rest;
    if |pat| <= |s| {
      MarkerMismatch(m, n, rest);
      ReplaceAllSkipOne(s, pat, id);
      ReplaceHeadTail(m, rest, pat, id);
    } else {
      ReplaceAllShort(s, pat, id);
      ReplaceAllShort(rest, pat, id);
    }
  }

  /** After the `<` of a reference to another name, the rest of the reference is kept. */
  lemma ReplaceHeadTail(m: string, rest: string, pat: string, id: string)
    requires '<' !in m && '>' !in m && pat != [] && pat[0] == '<'
    ensures [(Marker(m) + rest)[0]] + ReplaceAll((Marker(m) + rest)[1..], pat, id) == Marker(m) + ReplaceAll(rest, pat, id)
  {
    var s := Marker(m) + rest;
    assert s[1..] == m + ">" + rest;
    ReplaceSkip(m + ">", rest, pat, id);
    assert Marker(m) == [s[0]] + (m + ">");
  }

  /** Replacing `<n>` in text that starts with one part replaces that part alone, then carries on. */
  lemma ReplaceHead(p: Part, n: string, id: string, rest: string)
    requires '>' !in n
    requires match p
      case Lit(t) => '<' !in t
      case Ref(m) => '<' !in m && '>' !in m
    ensures ReplaceAll(RenderPart(p) + rest, Marker(n), id)
            == RenderPart(if p == Ref(n) then Lit(id) else p) + ReplaceAll(rest, Marker(n), id)
  {
    match p
    case Lit(t) =>
      ReplaceSkip(t, rest, Marker(n), id);
    case Ref(m) =>
      if m == n {
        ReplaceHeadSame(n, id, rest);
      } else {
        ReplaceHeadOther(m, n, id, rest);
      }
  }

  /** Replacing `<n>` in a rendered template replaces exactly the references to `n`. */
  lemma {:induction false} ReplaceRendered(parts: seq<Part>, n: string, id: string)
    requires WellFormedTemplate(parts) && '>' !in n
    ensures ReplaceAll(Render(parts), Marker(n), id) == Render(ReplaceRef(parts, n, id))
  {
    if parts != [] {
      var head, tail := parts[0], parts[1..];
      var replaced := ReplaceRef(parts, n, id);
      var pat := Marker(n);
      assert ReplaceAll(Render(tail), pat, id) == Render(ReplaceRef(tail, n, id)) by {
        assert WellFormedTemplate(tail) by {
          forall i | 0 <= i < |tail| ensures tail[i] == parts[i + 1] { }
        }
        ReplaceRendered(tail, n, id);
      }
      assert ReplaceAll(RenderPart(head) + Render(tail), pat, id)
             == RenderPart(if head == Ref(n) then Lit(id) else head) + ReplaceAll(Render(tail), pat, id) by {
        assert match head
          case Lit(t) => '<' !in t
          case Ref(m) => '<' !in m && '>' !in m;
        ReplaceHead(head, n, id, Render(tail));
      }
      assert Render(replaced) == RenderPart(if head == Ref(n) then Lit(id) else head) + Render(ReplaceRef(tail, n, id)) by {
        assert replaced[1..] == ReplaceRef(tail, n, id);
      }
    }
  }

  // ---------------------------------------------------------------------
  // The placeholder dictionary and reference substitution
  // ---------------------------------------------------------------------

  /** `placeholder_dict`: each placeholder's recorded attributes, its keys in insertion order. */
  datatype Placeholders = Placeholders(order: seq<string>, entries: map<string, Row>)

  /** Keys listed once, in step with the entries, and every entry carries a string `id`. */
  predicate ValidPlaceholders(ph: Placeholders)
  {
    NoDuplicates(ph.order)
    && (forall p :: p in ph.order ==> p in ph.entries)
    && (forall p :: p in ph.entries ==> p in ph.order)
    && (forall p :: p in ph.entries ==> "id" in ph.entries[p] && ph.entries[p]["id"].Str?)
  }

  /** `placeholder_dict[p]["id"]`. */
  function IdOf(ph: Placeholders, p: string): string
    requires ValidPlaceholders(ph) && p in ph.entries
  {
    ph.entries[p]["id"].s
  }

  /** `placeholder_dict[p] = entry`: a new key goes last, an existing one keeps its place. */
  function Store(ph: Placeholders, p: string, entry: Row): (r: Placeholders)
    requires ValidPlaceholders(ph) && "id" in entry && entry["id"].Str?
    ensures ValidPlaceholders(r)
    ensures r.entries == ph.entries[p := entry]
    ensures p in ph.entries ==> r.order == ph.order
    ensures p !in ph.entries ==> r.order == ph.order + [p]
  {
    Placeholders(if p in ph.entries then ph.order else ph.order + [p], ph.entries[p := entry])
  }

  /**
   * The references `refs` of `s`, in order, each replaced everywhere by its
   * placeholder's ID; the first reference with no placeholder raises
   * KeyError naming it.
   */
  function SubstituteRefs(s: string, refs: seq<string>, ph: Placeholders): (r: Result<string>)
    requires ValidPlaceholders(ph)
    ensures r.Ok? <==> forall x :: x in refs ==> x in ph.entries
    ensures r.Err? ==> r.error.kind == KeyError && |r.error.names| == 1
                       && r.error.names[0] in refs && r.error.names[0] !in ph.entries
    decreases |refs|
  {
    if refs == [] then Ok(s)
    else if refs[0] !in ph.entries then Err(Error(KeyError, [refs[0]]))
    else SubstituteRefs(ReplaceAll(s, Marker(refs[0]), IdOf(ph, refs[0])), refs[1..], ph)
  }

  /** The loop over `re.findall(r"<(.*?)>", s)` replacing each `<reference>` by `placeholder_dict[reference]["id"]`. */
  function Substitute(s: string, ph: Placeholders): Result<string>
    requires ValidPlaceholders(ph)
  {
    SubstituteRefs(s, FindRefs(s), ph)
  }

  /** The template with every reference replaced by its placeholder's ID. */
  function Resolve(parts: seq<Part>, ph: Placeholders): (r: seq<Part>)
    requires ValidPlaceholders(ph)
    requires forall n :: Ref(n) in parts ==> n in ph.entries
    ensures |r| == |parts|
  {
    seq(|parts|, i requires 0 <= i < |parts| =>
      if parts[i].Ref? then Lit(IdOf(ph, parts[i].name)) else parts[i])
  }

  /** The template with the references to the names in `names` replaced. */
  function ResolveIn(parts: seq<Part>, names: seq<string>, ph: Placeholders): (r: seq<Part>)
    requires ValidPlaceholders(ph)
    requires forall x :: x in names ==> x in ph.entries
    ensures |r| == |parts|
  {
    seq(|parts|, i requires 0 <= i < |parts| =>
      if parts[i].Ref? && parts[i].name in names then Lit(IdOf(ph, parts[i].name)) else parts[i])
  }

  lemma ReplaceRefWellFormed(parts: seq<Part>, n: string, id: string)
    requires WellFormedTemplate(parts) && '<' !in id
    ensures WellFormedTemplate(ReplaceRef(parts, n, id))
  {
    var next := ReplaceRef(parts, n, id);
    forall i | 0 <= i < |next|
      ensures match next[i]
        case Lit(t) => '<' !in t
        case Ref(m) => '<' !in m && '>' !in m && '\n' !in m
    {
      assert parts[i] == parts[i];
    }
  }

  lemma ResolveInStep(parts: seq<Part>, names: seq<string>, ph: Placeholders)
    requires ValidPlaceholders(ph) && names != []
    requires forall x :: x in names ==> x in ph.entries
    ensures ResolveIn(ReplaceRef(parts, names[0], IdOf(ph, names[0])), names[1..], ph) == ResolveIn(parts, names, ph)
  {
    assert names == [names[0]] + names[1..];
  }

  lemma {:induction false} SubstituteRefsRendered(parts: seq<Part>, names: seq<string>, ph: Placeholders)
    requires WellFormedTemplate(parts) && ValidPlaceholders(ph)
    requires forall x :: x in names ==> x in ph.entries && '>' !in x && '<' !in IdOf(ph, x)
    ensures SubstituteRefs(Render(parts), names, ph) == Ok(Render(ResolveIn(parts, names, ph)))
    decreases |names|
  {
    if names == [] {
      assert ResolveIn(parts, names, ph) == parts;
    } else {
      var n := names[0];
      var id := IdOf(ph, n);
      ReplaceRendered(parts, n, id);
      ReplaceRefWellFormed(parts, n, id);
      SubstituteRefsRendered(ReplaceRef(parts, n, id), names[1..], ph);
      ResolveInStep(parts, names, ph);
    }
  }

  /**
   * Substitution is correct on every template: a string written as literal
   * text and `<name>` references comes out with each reference replaced by
   * that placeholder's ID and nothing else changed, and it fails exactly
   * when some referenced placeholder has not been created.
   */
  lemma SubstituteRendered(parts: seq<Part>, ph: Placeholders)
    requires WellFormedTemplate(parts) && ValidPlaceholders(ph)
    requires forall n :: Ref(n) in parts && n in ph.entries ==> '<' !in IdOf(ph, n)
    ensures Substitute(Render(parts), ph).Ok? <==> forall n :: Ref(n) in parts ==> n in ph.entries
    ensures Substitute(Render(parts), ph).Ok? ==>
              Substitute(Render(parts), ph).value == Render(Resolve(parts, ph))
  {
    FindRefsRendered(parts);
    var names := Names(parts);
    if forall n :: Ref(n) in parts ==> n in ph.entries {
      forall x | x in names ensures '>' !in x {
        var i :| 0 <= i < |parts| && parts[i] == Ref(x);
      }
      SubstituteRefsRendered(parts, names, ph);
      assert ResolveIn(parts, names, ph) == Resolve(parts, ph);
    }
  }

  /** A string slot whose references all resolve. */
  predicate SlotResolves(v: Value, ph: Placeholders)
    requires ValidPlaceholders(ph)
  {
    v.Str? ==> Substitute(v.s, ph).Ok?
  }

  /** A slot after substitution: strings resolved, every other value as it was. */
  function ResolvedSlot(v: Value, ph: Placeholders): Value
    requires ValidPlaceholders(ph) && SlotResolves(v, ph)
  {
    if v.Str? then Str(Substitute(v.s, ph).value) else v
  }

  /**
   * The substitution loop over the slots of an outline or a process:
   * every string slot resolved, or KeyError when a reference has no
   * placeholder (which reference is named depends on the slot order).
   */
  function SubstituteBody(body: map<string, Value>, ph: Placeholders): (r: Result<map<string, Value>>)
    requires ValidPlaceholders(ph)
    ensures r.Err? ==> r.error.kind == KeyError
  {
    if forall k :: k in body ==> SlotResolves(body[k], ph) then
      Ok(map k | k in body :: ResolvedSlot(body[k], ph))
    else
      Err(Error(KeyError, []))
  }

  /** The loop over one string's references. */
  method SubstituteString(s: string, ph: Placeholders) returns (r: Result<string>)
    requires ValidPlaceholders(ph)
    ensures r == Substitute(s, ph)
  {
    var refs := FindRefs(s);
    var current := s;
    var i := 0;
    while i < |refs|
      invariant 0 <= i <= |refs|
      invariant SubstituteRefs(s, refs, ph) == SubstituteRefs(current, refs[i..], ph)
    {
      if refs[i] !in ph.entries {
        return Err(Error(KeyError, [refs[i]]));
      }
      current := ReplaceAll(current, Marker(refs[i]), IdOf(ph, refs[i]));
      i := i + 1;
    }
    return Ok(current);
  }

  /** The loop over the slots of an outline or a process, rewriting string slots in place. */
  method SubstituteSlots(body: map<string, Value>, ph: Placeholders) returns (r: Result<map<string, Value>>)
    requires ValidPlaceholders(ph)
    ensures r == SubstituteBody(body, ph)
  {
    var slots := body;
    var todo := body.Keys;
    while todo != {}
      invariant todo <= body.Keys && slots.Keys == body.Keys
      invariant forall k :: k in body && k !in todo ==> SlotResolves(body[k], ph) && slots[k] == ResolvedSlot(body[k], ph)
      invariant forall k :: k in todo ==> slots[k] == body[k]
      decreases todo
    {
      var k :| k in todo;
      if slots[k].Str? {
        var v := SubstituteString(slots[k].s, ph);
        if v.Err? {
          assert !SlotResolves(body[k], ph);
          return Err(Error(KeyError, []));
        }
        slots := slots[k := Str(v.value)];
      }
      todo := todo - {k};
    }
    assert slots == map k | k in body :: ResolvedSlot(body[k], ph);
    r := Ok(slots);
  }

  // ---------------------------------------------------------------------
  // `json_generation`
  // ---------------------------------------------------------------------

  /**
   * The generator `ProcessGeneratorMap` selects for a process type: from the
   * process's resolved slots and its input and output IDs it builds the
   * material-processing record (minting that record's own ID).
   */
  type ProcessBuilder = (string, map<string, Value>, seq<string>, seq<string>) -> Row

  /** `len(value)` is defined: a string, a list or a dictionary; an int, a bool or NaN has no length. */
  predicate Sized(v: Value)
  {
    v.Str? || v.List? || v.Dict?
  }

  /** `value is not None and len(value) > 0`, for a value that is None or has a length. */
  predicate Present(v: Value)
  {
    !v.Null? && v != Str("") && v != List([]) && v != Dict(map[])
  }

  /**
   * The entry recorded for a new processed sample: exactly its attributes
   * that are present. An attribute that is neither None nor sized makes
   * `len(value)` raise TypeError.
   */
  function KeepPresent(record: Row): (r: Result<Row>)
    ensures r.Err? <==> exists k :: k in record && !record[k].Null? && !Sized(record[k])
    ensures r.Err? ==> r.error.kind == TypeError
    ensures r.Ok? ==> forall k :: k in r.value <==> k in record && Present(record[k])
    ensures r.Ok? ==> forall k :: k in r.value ==> r.value[k] == record[k]
  {
    if exists k :: k in record && !record[k].Null? && !Sized(record[k]) then Err(Error(TypeError, ["len"]))
    else Ok(map k | k in record && Present(record[k]) :: record[k])
  }

  /**
   * The state `json_generation` carries from step to step: the placeholder
   * dictionary, the processed-sample outlines (substituted in place), the
   * outline last selected (a function-scope variable that outlives the loop
   * that sets it), the processed-sample IDs the pool has yet to hand out,
   * every input and output ID so far, and the records appended to the
   * database.
   */
  datatype Gen = Gen(
    ph: Placeholders,
    samples: seq<SampleOutline>,
    outline: Option<map<string, Value>>,
    supply: seq<string>,
    allInput: seq<string>,
    allOutput: seq<string>,
    newSamples: seq<Row>,
    newProcesses: seq<Row>)

  /** The IDs of a step's `has_input`, in order; ValueError for the first placeholder not yet created. */
  function InputIds(ph: Placeholders, ins: seq<string>, k: nat, acc: seq<string>): (r: Result<seq<string>>)
    requires ValidPlaceholders(ph) && k <= |ins|
    ensures r.Ok? <==> forall j :: k <= j < |ins| ==> ins[j] in ph.entries
    ensures r.Ok? ==> |r.value| == |acc| + |ins| - k && r.value[..|acc|] == acc
                      && forall j :: k <= j < |ins| ==> r.value[|acc| + j - k] == IdOf(ph, ins[j])
    ensures r.Err? ==> r.error.kind == ValueError && |r.error.names| == 1
                       && r.error.names[0] in ins[k..] && r.error.names[0] !in ph.entries
    decreases |ins| - k
  {
    if k == |ins| then Ok(acc)
    else if ins[k] in ph.entries then InputIds(ph, ins, k + 1, acc + [IdOf(ph, ins[k])])
    else Err(Error(ValueError, [ins[k]]))
  }

  /**
   * The loop over `data["processedsamples"]` for one output placeholder:
   * every outline for it has its string slots substituted in place, and the
   * last of them becomes the selected outline.
   */
  function OutlinesFrom(samples: seq<SampleOutline>, k: nat, op: string, ph: Placeholders,
                        outline: Option<map<string, Value>>): (r: Result<(seq<SampleOutline>, Option<map<string, Value>>)>)
    requires ValidPlaceholders(ph) && k <= |samples|
    ensures r.Ok? ==> |r.value.0| == |samples|
    ensures r.Err? ==> r.error.kind == KeyError
    decreases |samples| - k
  {
    if k == |samples| then Ok((samples, outline))
    else if samples[k].placeholder == op then
      match SubstituteBody(samples[k].body, ph)
      case Err(e) => Err(e)
      case Ok(b) => OutlinesFrom(samples[k := samples[k].(body := b)], k + 1, op, ph, Some(b))
    else
      OutlinesFrom(samples, k + 1, op, ph, outline)
  }

  /**
   * One output placeholder of a step: the outline is selected, a processed
   * sample is built from it with the next ID the pool hands out, its
   * present attributes are recorded under the placeholder, and the ID is
   * returned. No outline ever selected is a NameError, an exhausted pool a
   * RuntimeError, an attribute without a length a TypeError, and an empty
   * ID (not recorded) a KeyError. The processed sample is built from the
   * outline as `generate_processed_sample` is evidently meant to be called;
   * as written the call raises (see `StepErrorAsWritten`).
   */
  function ProduceOne(g: Gen, op: string): (r: Result<(Gen, string)>)
    requires ValidPlaceholders(g.ph)
    ensures r.Ok? ==> ValidPlaceholders(r.value.0.ph) && r.value.0.newProcesses == g.newProcesses
    ensures r.Ok? ==> r.value.0.ph.entries.Keys == g.ph.entries.Keys + {op}
                      && |r.value.0.newSamples| == |g.newSamples| + 1
    ensures r.Err? ==> r.error.kind in {KeyError, NameError, RuntimeError, TypeError}
  {
    match OutlinesFrom(g.samples, 0, op, g.ph, g.outline)
    case Err(e) => Err(e)
    case Ok((samples, outline)) =>
      if outline.None? then Err(Error(NameError, ["placeholder_outline"]))
      else if g.supply == [] then Err(Error(RuntimeError, ["nmdc:ProcessedSample"]))
      else
        var id := g.supply[0];
        var record := outline.value["id" := Str(id)];
        match KeepPresent(record)
        case Err(e) => Err(e)
        case Ok(entry) =>
          if id == "" then Err(Error(KeyError, ["id"]))
          else
            Ok((g.(ph := Store(g.ph, op, entry), samples := samples, outline := outline,
                   supply := g.supply[1..], allOutput := g.allOutput + [id], newSamples := g.newSamples + [record]),
                id))
  }

  /** The loop over a step's `has_output`: the state after it and the IDs of the new processed samples. */
  function OutputsFrom(g: Gen, outs: seq<string>, k: nat, acc: seq<string>): (r: Result<(Gen, seq<string>)>)
    requires ValidPlaceholders(g.ph) && k <= |outs|
    ensures r.Ok? ==> ValidPlaceholders(r.value.0.ph) && r.value.0.newProcesses == g.newProcesses
    ensures r.Ok? ==> r.value.0.ph.entries.Keys == g.ph.entries.Keys + (set x | x in outs[k..])
                      && |r.value.0.newSamples| == |g.newSamples| + |outs| - k
    ensures r.Err? ==> r.error.kind in {KeyError, NameError, RuntimeError, TypeError}
    decreases |outs| - k
  {
    if k == |outs| then Ok((g, acc))
    else
      assert outs[k..] == [outs[k]] + outs[k + 1..];
      match ProduceOne(g, outs[k])
      case Err(e) => Err(e)
      case Ok((g', id)) => OutputsFrom(g', outs, k + 1, acc + [id])
  }

  /**
   * One step of the outline: its inputs resolved to IDs, its outputs
   * created, its string slots substituted and its material-processing
   * record appended.
   */
  function RunStep(g: Gen, s: Step, build: ProcessBuilder): (r: Result<Gen>)
    requires ValidPlaceholders(g.ph)
    ensures r.Ok? ==> ValidPlaceholders(r.value.ph)
    ensures r.Ok? ==> Ins(s) <= g.ph.entries.Keys && r.value.ph.entries.Keys == g.ph.entries.Keys + Outs(s)
    ensures r.Ok? ==> |r.value.newSamples| == |g.newSamples| + |s.outputs|
                      && |r.value.newProcesses| == |g.newProcesses| + 1
    ensures r.Err? && r.error.kind == ValueError ==>
      |r.error.names| == 1 && r.error.names[0] in s.inputs && r.error.names[0] !in g.ph.entries
  {
    assert s.outputs[0..] == s.outputs;
    match InputIds(g.ph, s.inputs, 0, [])
    case Err(e) => Err(e)
    case Ok(ins) =>
      match OutputsFrom(g.(allInput := g.allInput + ins), s.outputs, 0, [])
      case Err(e) => Err(e)
      case Ok((g', outs)) =>
        match SubstituteBody(s.slots, g'.ph)
        case Err(e) => Err(e)
        case Ok(slots) => Ok(g'.(newProcesses := g'.newProcesses + [build(s.processType, slots, ins, outs)]))
  }

  /** The steps from the `i`-th on, in order; the first error ends the run. */
  function StepsFrom(g: Gen, steps: seq<Step>, i: nat, build: ProcessBuilder): (r: Result<Gen>)
    requires ValidPlaceholders(g.ph) && i <= |steps|
    ensures r.Ok? ==> ValidPlaceholders(r.value.ph)
    decreases |steps| - i
  {
    if i == |steps| then Ok(g)
    else
      match RunStep(g, steps[i], build)
      case Err(e) => Err(e)
      case Ok(g') => StepsFrom(g', steps, i + 1, build)
  }

  /** The final outputs from the `k`-th placeholder on: those whose ID was output and never input. */
  function FinalFrom(ph: Placeholders, k: nat, allInput: seq<string>, allOutput: seq<string>): (r: seq<(string, string)>)
    requires ValidPlaceholders(ph) && k <= |ph.order|
    decreases |ph.order| - k
  {
    if k == |ph.order| then []
    else
      var p := ph.order[k];
      var id := IdOf(ph, p);
      (if id in allOutput && id !in allInput then [(p, id)] else []) + FinalFrom(ph, k + 1, allInput, allOutput)
  }

  /** The state `json_generation` starts from. */
  function StartState(init: Placeholders, samples: seq<SampleOutline>, supply: seq<string>): Gen
  {
    Gen(init, samples, None, supply, [], [], [], [])
  }

  /** `json_generation` as a whole: the final state and the final outputs, or the error raised. */
  function Generate(steps: seq<Step>, samples: seq<SampleOutline>, init: Placeholders, supply: seq<string>,
                    build: ProcessBuilder): Result<(Gen, seq<(string, string)>)>
    requires ValidPlaceholders(init)
  {
    match StepsFrom(StartState(init, samples, supply), steps, 0, build)
    case Err(e) => Err(e)
    case Ok(g) => Ok((g, FinalFrom(g.ph, 0, g.allInput, g.allOutput)))
  }

  /**
   * One step of `json_generation` as written, which never completes: its
   * inputs are resolved as in `RunStep`; then the first output calls
   * `generate_processed_sample(placeholder_outline)` without the
   * `description`, `CLIENT_ID` and `CLIENT_SECRET` that method requires, a
   * TypeError (a NameError when no outline was ever selected), and a step
   * without outputs looks its generator up under a `ProcessGeneratorMap`
   * name that no class defines, an AttributeError. The error it raises.
   */
  function StepErrorAsWritten(g: Gen, s: Step): (e: Error)
    requires ValidPlaceholders(g.ph)
    ensures e.kind in {ValueError, KeyError, NameError, TypeError, AttributeError}
    ensures e.kind == ValueError <==> exists j :: 0 <= j < |s.inputs| && s.inputs[j] !in g.ph.entries
  {
    match InputIds(g.ph, s.inputs, 0, [])
    case Err(e) => e
    case Ok(_) =>
      if s.outputs != [] then
        match OutlinesFrom(g.samples, 0, s.outputs[0], g.ph, g.outline)
        case Err(e) => e
        case Ok((_, outline)) =>
          Error(if outline.None? then NameError else TypeError, ["generate_processed_sample"])
      else
        match SubstituteBody(s.slots, g.ph)
        case Err(e) => e
        case Ok(_) => Error(AttributeError, [s.processType])
  }

  /**
   * `json_generation` as written: it returns only for an outline without
   * steps, and then with no final outputs; otherwise the first step raises.
   */
  function GenerateAsWritten(steps: seq<Step>, samples: seq<SampleOutline>, init: Placeholders,
                             supply: seq<string>): (r: Result<seq<(string, string)>>)
    requires ValidPlaceholders(init)
    ensures r.Ok? <==> steps == []
    ensures r.Ok? ==> r.value == []
    ensures r.Err? ==> r.error.kind in {ValueError, KeyError, NameError, TypeError, AttributeError}
  {
    var g := StartState(init, samples, supply);
    if steps == [] then
      FinalFromNoOutputs(g.ph, 0, g.allInput);
      Ok(FinalFrom(g.ph, 0, g.allInput, g.allOutput))
    else Err(StepErrorAsWritten(g, steps[0]))
  }

  // A one-step outline that tells the two apart: the step outputs `p1`,
  // whose outline names the sampled portion, and nothing is defined before.

  const ExampleId: string := "nmdc:procsm-11-1"

  const ExampleBody: map<string, Value> := map["sampled_portion" := List([Str("supernatant")])]

  const ExampleStep: Step := Step("Step 1", "SubSamplingProcess", [], ["p1"], map[])

  function ExampleStart(): Gen
  {
    StartState(Placeholders([], map[]), [SampleOutline("p1", ExampleBody)], [ExampleId])
  }

  /** The state after the example step's one output. */
  function ExampleProduced(): Gen
  {
    var entry := map["sampled_portion" := List([Str("supernatant")]), "id" := Str(ExampleId)];
    ExampleStart().(ph := Placeholders(["p1"], map["p1" := entry]), supply := [], outline := Some(ExampleBody),
                    allOutput := [ExampleId], newSamples := [ExampleBody["id" := Str(ExampleId)]])
  }

  lemma ExampleOutput()
    ensures ProduceOne(ExampleStart(), "p1") == Ok((ExampleProduced(), ExampleId))
  {
    var g, id := ExampleStart(), ExampleId;
    ExampleOutlineSelected();
    ExampleEntry();
    assert g.supply[0] == id && g.supply[1..] == [] && id != "";
    var r := ProduceOne(g, "p1");
    assert r.Ok? && r.value.1 == id;
    assert r.value.0.allOutput == [id] && r.value.0.supply == [];
    assert r.value.0.ph == ExampleProduced().ph && r.value.0.newSamples == ExampleProduced().newSamples;
  }

  lemma ExampleOutlineSelected()
    ensures OutlinesFrom(ExampleStart().samples, 0, "p1", ExampleStart().ph, None)
            == Ok((ExampleStart().samples, Some(ExampleBody)))
  {
    var g, body := ExampleStart(), ExampleBody;
    var init := Placeholders([], map[]);
    assert SubstituteBody(body, init) == Ok(body) by {
      assert forall k :: k in body ==> k == "sampled_portion";
      assert SlotResolves(body["sampled_portion"], init);
      assert (map k | k in body :: ResolvedSlot(body[k], init)) == body;
    }
    assert g.samples[0 := g.samples[0].(body := body)] == g.samples;
  }

  lemma ExampleEntry()
    ensures KeepPresent(ExampleBody["id" := Str(ExampleId)]) == Ok(ExampleProduced().ph.entries["p1"])
    ensures Store(ExampleStart().ph, "p1", ExampleProduced().ph.entries["p1"]) == ExampleProduced().ph
  {
    var record := ExampleBody["id" := Str(ExampleId)];
    var entry := ExampleProduced().ph.entries["p1"];
    assert record.Keys == {"sampled_portion", "id"};
    assert forall k :: k in record ==> Sized(record[k]) && Present(record[k]);
    assert (map k | k in record && Present(record[k]) :: record[k]) == entry;
  }

  lemma ExampleStepRuns(build: ProcessBuilder)
    ensures RunStep(ExampleStart(), ExampleStep, build)
            == Ok(ExampleProduced().(newProcesses := [build("SubSamplingProcess", map[], [], [ExampleId])]))
  {
    var g, s, g1 := ExampleStart(), ExampleStep, ExampleProduced();
    ExampleOutput();
    assert g.(allInput := g.allInput + []) == g;
    assert InputIds(g.ph, s.inputs, 0, []) == Ok([]);
    assert OutputsFrom(g, s.outputs, 0, []) == Ok((g1, [ExampleId]));
    assert SubstituteBody(s.slots, g1.ph) == Ok(map[]);
    var r := RunStep(g, s, build);
    assert r.Ok? && r.value.newProcesses == [build("SubSamplingProcess", map[], [], [ExampleId])];
    assert r.value.(newProcesses := []) == g1;
  }

  /**
   * On the example step, the intended run makes one processed sample and
   * one material-processing record and reports the sample as the final
   * output, while as written the step raises TypeError.
   */
  lemma OutputStepRaisesTypeError(build: ProcessBuilder)
    ensures var samples := [SampleOutline("p1", ExampleBody)];
      var init := Placeholders([], map[]);
      var r := Generate([ExampleStep], samples, init, [ExampleId], build);
      r.Ok? && |r.value.0.newSamples| == 1 && |r.value.0.newProcesses| == 1
      && r.value.1 == [("p1", ExampleId)]
      && GenerateAsWritten([ExampleStep], samples, init, [ExampleId])
         == Err(Error(TypeError, ["generate_processed_sample"]))
  {
    var g, ph := ExampleStart(), ExampleProduced().ph;
    var g2 := ExampleProduced().(newProcesses := [build("SubSamplingProcess", map[], [], [ExampleId])]);
    ExampleStepRuns(build);
    assert StepsFrom(g, [ExampleStep], 0, build) == Ok(g2);
    assert FinalFrom(ph, 1, [], [ExampleId]) == [];
    assert FinalFrom(ph, 0, [], [ExampleId]) == [("p1", ExampleId)];
    assert InputIds(g.ph, ExampleStep.inputs, 0, []) == Ok([]);
    ExampleOutlineSelected();
  }

  /** The loop over a step's `has_input`. */
  method ResolveInputs(ph: Placeholders, ins: seq<string>) returns (r: Result<seq<string>>)
    requires ValidPlaceholders(ph)
    ensures r == InputIds(ph, ins, 0, [])
  {
    var ids := [];
    var k := 0;
    while k < |ins|
      invariant 0 <= k <= |ins|
      invariant InputIds(ph, ins, 0, []) == InputIds(ph, ins, k, ids)
    {
      if ins[k] !in ph.entries {
        return Err(Error(ValueError, [ins[k]]));
      }
      ids := ids + [IdOf(ph, ins[k])];
      k := k + 1;
    }
    return Ok(ids);
  }

  /** The loop over the processed-sample outlines for one output placeholder. */
  method SubstituteOutlines(samples: seq<SampleOutline>, op: string, ph: Placeholders,
                            outline: Option<map<string, Value>>)
    returns (r: Result<(seq<SampleOutline>, Option<map<string, Value>>)>)
    requires ValidPlaceholders(ph)
    ensures r == OutlinesFrom(samples, 0, op, ph, outline)
  {
    var current := samples;
    var selected := outline;
    var k := 0;
    while k < |current|
      invariant |current| == |samples| && 0 <= k <= |current|
      invariant OutlinesFrom(samples, 0, op, ph, outline) == OutlinesFrom(current, k, op, ph, selected)
    {
      if current[k].placeholder == op {
        var body := SubstituteSlots(current[k].body, ph);
        if body.Err? {
          return Err(body.error);
        }
        current := current[k := current[k].(body := body.value)];
        selected := Some(body.value);
      }
      k := k + 1;
    }
    return Ok((current, selected));
  }

  /** The loop over a step's `has_output`, appending each new processed sample to the database. */
  method ProduceOutputs(g0: Gen, outs: seq<string>, db: Database, ghost base: seq<Row>)
    returns (r: Result<(Gen, seq<string>)>)
    requires ValidPlaceholders(g0.ph)
    requires db.processedSampleSet == base + g0.newSamples
    modifies db`processedSampleSet
    ensures r == OutputsFrom(g0, outs, 0, [])
    ensures r.Ok? ==> db.processedSampleSet == base + r.value.0.newSamples
  {
    var g := g0;
    var ids := [];
    var k := 0;
    while k < |outs|
      invariant 0 <= k <= |outs| && ValidPlaceholders(g.ph)
      invariant OutputsFrom(g0, outs, 0, []) == OutputsFrom(g, outs, k, ids)
      invariant db.processedSampleSet == base + g.newSamples
    {
      var one := ProduceOutput(g, outs[k], db, base);
      if one.Err? {
        return Err(one.error);
      }
      g, ids := one.value.0, ids + [one.value.1];
      k := k + 1;
    }
    return Ok((g, ids));
  }

  /** The body of the `has_output` loop for the output placeholder `op`. */
  method ProduceOutput(g: Gen, op: string, db: Database, ghost base: seq<Row>) returns (r: Result<(Gen, string)>)
    requires ValidPlaceholders(g.ph)
    requires db.processedSampleSet == base + g.newSamples
    modifies db`processedSampleSet
    ensures r == ProduceOne(g, op)
    ensures r.Ok? ==> db.processedSampleSet == base + r.value.0.newSamples
  {
    var found := SubstituteOutlines(g.samples, op, g.ph, g.outline);
    if found.Err? {
      return Err(found.error);
    }
    var samples, outline := found.value.0, found.value.1;
    if outline.None? {
      return Err(Error(NameError, ["placeholder_outline"]));
    }
    if g.supply == [] {
      return Err(Error(RuntimeError, ["nmdc:ProcessedSample"]));
    }
    var id := g.supply[0];
    var record := outline.value["id" := Str(id)];
    var entry := KeepPresent(record);
    if entry.Err? {
      return Err(entry.error);
    }
    if id == "" {
      return Err(Error(KeyError, ["id"]));
    }
    db.processedSampleSet := db.processedSampleSet + [record];
    return Ok((g.(ph := Store(g.ph, op, entry.value), samples := samples, outline := outline,
                  supply := g.supply[1..], allOutput := g.allOutput + [id], newSamples := g.newSamples + [record]),
               id));
  }

  /** One step of the outline, appending its processed samples and its material-processing record to the database. */
  method GenerateStep(g0: Gen, s: Step, build: ProcessBuilder, db: Database, ghost baseSamples: seq<Row>,
                      ghost baseProcesses: seq<Row>) returns (r: Result<Gen>)
    requires ValidPlaceholders(g0.ph)
    requires db.processedSampleSet == baseSamples + g0.newSamples
    requires db.materialProcessingSet == baseProcesses + g0.newProcesses
    modifies db`processedSampleSet, db`materialProcessingSet
    ensures r == RunStep(g0, s, build)
    ensures r.Ok? ==> db.processedSampleSet == baseSamples + r.value.newSamples
                      && db.materialProcessingSet == baseProcesses + r.value.newProcesses
  {
    var ins := ResolveInputs(g0.ph, s.inputs);
    if ins.Err? {
      return Err(ins.error);
    }
    var g := g0.(allInput := g0.allInput + ins.value);
    var produced := ProduceOutputs(g, s.outputs, db, baseSamples);
    if produced.Err? {
      return Err(produced.error);
    }
    var outs := produced.value.1;
    g := produced.value.0;
    var slots := SubstituteSlots(s.slots, g.ph);
    if slots.Err? {
      return Err(slots.error);
    }
    var record := build(s.processType, slots.value, ins.value, outs);
    g := g.(newProcesses := g.newProcesses + [record]);
    db.materialProcessingSet := db.materialProcessingSet + [record];
    return Ok(g);
  }

  /** The loop building the final-output dictionary, in placeholder order. */
  method CollectFinals(g: Gen) returns (finals: seq<(string, string)>)
    requires ValidPlaceholders(g.ph)
    ensures finals == FinalFrom(g.ph, 0, g.allInput, g.allOutput)
  {
    finals := [];
    var k := 0;
    while k < |g.ph.order|
      invariant 0 <= k <= |g.ph.order|
      invariant finals + FinalFrom(g.ph, k, g.allInput, g.allOutput) == FinalFrom(g.ph, 0, g.allInput, g.allOutput)
    {
      var p := g.ph.order[k];
      var id := IdOf(g.ph, p);
      if id in g.allOutput && id !in g.allInput {
        finals := finals + [(p, id)];
      }
      k := k + 1;
    }
  }

  /**
   * `json_generation` for one biosample's outline: every step in order, then
   * the final outputs in placeholder order. The processed samples and the
   * material-processing records are appended to the database as they are
   * made; the result and the records appended are those of `Generate`.
   */
  method JsonGeneration(steps: seq<Step>, samples: seq<SampleOutline>, init: Placeholders, supply: seq<string>,
                        build: ProcessBuilder, db: Database)
    returns (err: Option<Error>, finals: seq<(string, string)>)
    requires ValidPlaceholders(init)
    modifies db`processedSampleSet, db`materialProcessingSet
    ensures var r := Generate(steps, samples, init, supply, build);
      (r.Err? ==> err == Some(r.error))
      && (r.Ok? ==>
            err == None && finals == r.value.1
            && db.processedSampleSet == old(db.processedSampleSet) + r.value.0.newSamples
            && db.materialProcessingSet == old(db.materialProcessingSet) + r.value.0.newProcesses)
  {
    var run := RunSteps(StartState(init, samples, supply), steps, build, db, db.processedSampleSet, db.materialProcessingSet);
    if run.Err? {
      return Some(run.error), [];
    }
    finals := CollectFinals(run.value);
    err := None;
  }

  /** The loop over the steps of `json_generation`, from the state `g0`. */
  method RunSteps(g0: Gen, steps: seq<Step>, build: ProcessBuilder, db: Database, ghost baseSamples: seq<Row>,
                  ghost baseProcesses: seq<Row>) returns (r: Result<Gen>)
    requires ValidPlaceholders(g0.ph)
    requires db.processedSampleSet == baseSamples + g0.newSamples
    requires db.materialProcessingSet == baseProcesses + g0.newProcesses
    modifies db`processedSampleSet, db`materialProcessingSet
    ensures r == StepsFrom(g0, steps, 0, build)
    ensures r.Ok? ==> ValidPlaceholders(r.value.ph)
                      && db.processedSampleSet == baseSamples + r.value.newSamples
                      && db.materialProcessingSet == baseProcesses + r.value.newProcesses
  {
    var g := g0;
    var i := 0;
    while i < |steps|
      invariant 0 <= i <= |steps| && ValidPlaceholders(g.ph)
      invariant StepsFrom(g0, steps, 0, build) == StepsFrom(g, steps, i, build)
      invariant db.processedSampleSet == baseSamples + g.newSamples
      invariant db.materialProcessingSet == baseProcesses + g.newProcesses
    {
      var next := GenerateStep(g, steps[i], build, db, baseSamples, baseProcesses);
      if next.Err? {
        return Err(next.error);
      }
      g := next.value;
      i := i + 1;
    }
    r := Ok(g);
  }

  // ---------------------------------------------------------------------
  // What `json_generation` guarantees
  // ---------------------------------------------------------------------

  /** The processed samples the steps from the `i`-th on create. */
  function OutputCount(steps: seq<Step>, i: nat): nat
    requires i <= |steps|
    decreases |steps| - i
  {
    if i == |steps| then 0 else |steps[i].outputs| + OutputCount(steps, i + 1)
  }

  lemma OutsOfNext(steps: seq<Step>, i: nat)
    requires i < |steps|
    ensures OutsOf(steps[..i + 1]) == OutsOf(steps[..i]) + Outs(steps[i])
  {
    assert steps[..i + 1][..i] == steps[..i];
  }

  /** Placeholders defined when step `j` runs: those given at the start and the outputs of earlier steps. */
  function DefinedAt(initial: set<string>, steps: seq<Step>, j: nat): set<string>
    requires j <= |steps|
  {
    initial + OutsOf(steps[..j])
  }

  /** Every input of step `j` is defined when it runs. */
  predicate InputsDefined(initial: set<string>, steps: seq<Step>, j: nat)
    requires j < |steps|
  {
    Ins(steps[j]) <= DefinedAt(initial, steps, j)
  }

  lemma {:induction false} StepsFromDefined(g: Gen, steps: seq<Step>, i: nat, build: ProcessBuilder, initial: set<string>)
    requires ValidPlaceholders(g.ph) && i <= |steps|
    requires g.ph.entries.Keys == DefinedAt(initial, steps, i)
    ensures StepsFrom(g, steps, i, build).Ok? ==>
      forall j :: i <= j < |steps| ==> InputsDefined(initial, steps, j)
    decreases |steps| - i
  {
    if i < |steps| && StepsFrom(g, steps, i, build).Ok? {
      var r := RunStep(g, steps[i], build);
      assert r.Ok? && StepsFrom(g, steps, i, build) == StepsFrom(r.value, steps, i + 1, build);
      OutsOfNext(steps, i);
      StepsFromDefined(r.value, steps, i + 1, build, initial);
      forall j | i <= j < |steps| ensures InputsDefined(initial, steps, j) {
        if j == i {
          assert Ins(steps[i]) <= g.ph.entries.Keys;
        }
      }
    }
  }

  lemma {:induction false} StepsFromValueError(g: Gen, steps: seq<Step>, i: nat, build: ProcessBuilder, initial: set<string>)
    requires ValidPlaceholders(g.ph) && i <= |steps|
    requires g.ph.entries.Keys == DefinedAt(initial, steps, i)
    ensures var r := StepsFrom(g, steps, i, build);
      r.Err? && r.error.kind == ValueError ==>
        |r.error.names| == 1
        && exists j :: i <= j < |steps| && r.error.names[0] in steps[j].inputs
                       && r.error.names[0] !in DefinedAt(initial, steps, j)
    decreases |steps| - i
  {
    if i < |steps| {
      var r := RunStep(g, steps[i], build);
      if r.Ok? {
        OutsOfNext(steps, i);
        StepsFromValueError(r.value, steps, i + 1, build, initial);
      }
    }
  }

  /**
   * The topological-order check: when `json_generation` succeeds, every
   * step's inputs were in the initial dictionary or are outputs of an
   * earlier step.
   */
  lemma GenerateInputsDefinedEarlier(steps: seq<Step>, samples: seq<SampleOutline>, init: Placeholders,
                                     supply: seq<string>, build: ProcessBuilder)
    requires ValidPlaceholders(init)
    ensures Generate(steps, samples, init, supply, build).Ok? ==>
      forall j, p :: 0 <= j < |steps| && p in steps[j].inputs ==>
        p in init.entries || exists l :: 0 <= l < j && p in steps[l].outputs
  {
    var g := StartState(init, samples, supply);
    assert OutsOf(steps[..0]) == {};
    StepsFromDefined(g, steps, 0, build, init.entries.Keys);
    if Generate(steps, samples, init, supply, build).Ok? {
      forall j, p | 0 <= j < |steps| && p in steps[j].inputs && p !in init.entries
        ensures exists l :: 0 <= l < j && p in steps[l].outputs
      {
        assert InputsDefined(init.entries.Keys, steps, j);
        assert p in Ins(steps[j]);
        var l := OutsOfWitness(steps[..j], p);
        assert steps[..j][l] == steps[l];
      }
    }
  }

  /**
   * The only ValueError `json_generation` raises names an input placeholder
   * of some step that neither was in the initial dictionary nor is an
   * output of an earlier step.
   */
  lemma GenerateValueErrorIsUndefinedInput(steps: seq<Step>, samples: seq<SampleOutline>, init: Placeholders,
                                           supply: seq<string>, build: ProcessBuilder)
    requires ValidPlaceholders(init)
    ensures var r := Generate(steps, samples, init, supply, build);
      r.Err? && r.error.kind == ValueError ==>
        |r.error.names| == 1
        && exists j :: 0 <= j < |steps| && r.error.names[0] in steps[j].inputs
                       && r.error.names[0] !in init.entries
                       && forall l :: 0 <= l < j ==> r.error.names[0] !in steps[l].outputs
  {
    var g := StartState(init, samples, supply);
    assert OutsOf(steps[..0]) == {};
    StepsFromValueError(g, steps, 0, build, init.entries.Keys);
    var r := Generate(steps, samples, init, supply, build);
    if r.Err? && r.error.kind == ValueError {
      var p := r.error.names[0];
      var j :| 0 <= j < |steps| && p in steps[j].inputs && p !in init.entries.Keys + OutsOf(steps[..j]);
      forall l | 0 <= l < j ensures p !in steps[l].outputs {
        assert steps[..j][l] == steps[l];
        assert Outs(steps[..j][l]) <= OutsOf(steps[..j]);
      }
    }
  }

  lemma {:induction false} StepsFromCounts(g: Gen, steps: seq<Step>, i: nat, build: ProcessBuilder)
    requires ValidPlaceholders(g.ph) && i <= |steps|
    ensures var r := StepsFrom(g, steps, i, build);
      r.Ok? ==> |r.value.newSamples| == |g.newSamples| + OutputCount(steps, i)
                && |r.value.newProcesses| == |g.newProcesses| + |steps| - i
    decreases |steps| - i
  {
    if i < |steps| {
      var r := RunStep(g, steps[i], build);
      if r.Ok? {
        StepsFromCounts(r.value, steps, i + 1, build);
      }
    }
  }

  /**
   * A successful run appends exactly one processed sample per `has_output`
   * entry of every step and exactly one material-processing record per step.
   */
  lemma GenerateCounts(steps: seq<Step>, samples: seq<SampleOutline>, init: Placeholders,
                       supply: seq<string>, build: ProcessBuilder)
    requires ValidPlaceholders(init)
    ensures var r := Generate(steps, samples, init, supply, build);
      r.Ok? ==> |r.value.0.newSamples| == OutputCount(steps, 0) && |r.value.0.newProcesses| == |steps|
  {
    StepsFromCounts(StartState(init, samples, supply), steps, 0, build);
  }

  /** Without outputs there are no final outputs. */
  lemma {:induction false} FinalFromNoOutputs(ph: Placeholders, k: nat, allInput: seq<string>)
    requires ValidPlaceholders(ph) && k <= |ph.order|
    ensures FinalFrom(ph, k, allInput, []) == []
    decreases |ph.order| - k
  {
    if k < |ph.order| {
      FinalFromNoOutputs(ph, k + 1, allInput);
    }
  }

  /**
   * The final outputs: exactly the placeholders whose ID was output by some
   * step and was never an input, each with that ID, in the dictionary's
   * order and each once.
   */
  lemma {:induction false} FinalFromMembers(ph: Placeholders, k: nat, allInput: seq<string>, allOutput: seq<string>)
    requires ValidPlaceholders(ph) && k <= |ph.order|
    ensures var r := FinalFrom(ph, k, allInput, allOutput);
      (forall p, id :: (p, id) in r <==>
         p in ph.order[k..] && id == IdOf(ph, p) && id in allOutput && id !in allInput)
      && (forall a, b :: 0 <= a < b < |r| ==> r[a].0 != r[b].0)
    decreases |ph.order| - k
  {
    if k < |ph.order| {
      FinalFromMembers(ph, k + 1, allInput, allOutput);
      assert ph.order[k..] == [ph.order[k]] + ph.order[k + 1..];
      var r := FinalFrom(ph, k, allInput, allOutput);
      var rest := FinalFrom(ph, k + 1, allInput, allOutput);
      assert ph.order[k] !in ph.order[k + 1..] by {
        forall j | k + 1 <= j < |ph.order| ensures ph.order[j] != ph.order[k] { }
      }
      forall a, b | 0 <= a < b < |r| ensures r[a].0 != r[b].0 {
        if |r| > |rest| && a == 0 {
          assert r[b] == rest[b - 1];
          assert r[b] in rest;
        }
      }
    }
  }

  // ---------------------------------------------------------------------
  // `map_final_samples`
  // ---------------------------------------------------------------------

  /**
   * Rows of a biosample's sample mapping, as `mapping_info` reads them from
   * a CSV: a raw identifier cell that is a scalar (a string, or NaN where
   * the cell is empty) and a placeholder cell.
   */
  predicate MappingRows(mapping: seq<Row>)
  {
    forall i :: 0 <= i < |mapping| ==>
      "raw_data_identifier" in mapping[i] && !mapping[i]["raw_data_identifier"].List?
      && !mapping[i]["raw_data_identifier"].Dict? && "processedsample_placeholder" in mapping[i]
  }

  function RawId(row: Row): Value
    requires "raw_data_identifier" in row
  {
    row["raw_data_identifier"]
  }

  /** Some row of the mapping has raw identifier `x` and placeholder `p`. */
  ghost predicate MappedTo(mapping: seq<Row>, x: Value, p: string)
    requires MappingRows(mapping)
  {
    exists i :: 0 <= i < |mapping| && mapping[i]["processedsample_placeholder"] == Str(p) && RawId(mapping[i]) == x
  }

  /**
   * `rawids`: the raw identifiers of the rows whose placeholder is `p`,
   * each once, in order of first appearance (`.unique().tolist()`).
   */
  function RawIdsUnder(mapping: seq<Row>, p: string): seq<Value>
    requires MappingRows(mapping)
  {
    if mapping == [] then []
    else
      var init := RawIdsUnder(mapping[..|mapping| - 1], p);
      var row := mapping[|mapping| - 1];
      if row["processedsample_placeholder"] == Str(p) && RawId(row) !in init then init + [RawId(row)] else init
  }

  /** `rawids` holds exactly the raw identifiers of the rows whose placeholder is `p`, each once. */
  lemma {:induction false} RawIdsUnderMembers(mapping: seq<Row>, p: string, x: Value)
    requires MappingRows(mapping)
    ensures x in RawIdsUnder(mapping, p) <==> MappedTo(mapping, x, p)
    ensures NoDuplicates(RawIdsUnder(mapping, p))
  {
    if mapping != [] {
      var init := mapping[..|mapping| - 1];
      var last := |mapping| - 1;
      RawIdsUnderMembers(init, p, x);
      if MappedTo(init, x, p) {
        var i :| 0 <= i < |init| && init[i]["processedsample_placeholder"] == Str(p) && RawId(init[i]) == x;
        assert mapping[i] == init[i];
      }
      if MappedTo(mapping, x, p) {
        var i :| 0 <= i < |mapping| && mapping[i]["processedsample_placeholder"] == Str(p) && RawId(mapping[i]) == x;
        if i < last {
          assert init[i] == mapping[i];
        }
      }
    }
  }

  /** `sample_mapping["raw_data_identifier"].unique().tolist()`. */
  function AllRawIds(mapping: seq<Row>): seq<Value>
    requires MappingRows(mapping)
  {
    Dedup(seq(|mapping|, i requires 0 <= i < |mapping| => RawId(mapping[i])))
  }

  /** `[item for item in items if item not in drop]`. */
  function RemoveAll(items: seq<Value>, drop: seq<Value>): (r: seq<Value>)
    ensures forall x :: x in r <==> x in items && x !in drop
  {
    if items == [] then []
    else
      assert forall x :: x in items <==> x == items[0] || x in items[1..];
      (if items[0] in drop then [] else [items[0]]) + RemoveAll(items[1..], drop)
  }

  /** `"nmdc:" in rawid`: the raw data already has an NMDC record. */
  predicate HasNmdcRecord(rawId: string)
  {
    IsSubstring("nmdc:", rawId)
  }

  /** The raw identifiers left unmatched once the final processed samples from the `k`-th on are mapped. */
  function UnmatchedFrom(ids: seq<Value>, finals: seq<(string, string)>, k: nat, mapping: seq<Row>): seq<Value>
    requires k <= |finals| && MappingRows(mapping)
    decreases |finals| - k
  {
    if k == |finals| then ids
    else UnmatchedFrom(RemoveAll(ids, RawIdsUnder(mapping, finals[k].0)), finals, k + 1, mapping)
  }

  /** `sample_mapping[sample_mapping["raw_data_identifier"].isin(ids)]`. */
  function RowsWithRawIdIn(mapping: seq<Row>, ids: seq<Value>): (r: seq<Row>)
    requires MappingRows(mapping)
    ensures forall row :: row in r <==> row in mapping && RawId(row) in ids
  {
    if mapping == [] then []
    else
      assert forall row :: row in mapping <==> row == mapping[0] || row in mapping[1..];
      (if RawId(mapping[0]) in ids then [mapping[0]] else []) + RowsWithRawIdIn(mapping[1..], ids)
  }

  /** The (raw identifier, processed sample ID) pairs of `rawIds` whose raw data does (`nmdc`) or does not have an NMDC record yet. */
  function Entries(rawIds: seq<string>, psId: string, nmdc: bool): seq<(string, string)>
  {
    if rawIds == [] then []
    else (if HasNmdcRecord(rawIds[0]) == nmdc then [(rawIds[0], psId)] else []) + Entries(rawIds[1..], psId, nmdc)
  }

  lemma {:induction false} EntriesMembers(rawIds: seq<string>, psId: string, nmdc: bool)
    ensures forall e :: e in Entries(rawIds, psId, nmdc) <==> e.0 in rawIds && e.1 == psId && HasNmdcRecord(e.0) == nmdc
  {
    if rawIds != [] {
      EntriesMembers(rawIds[1..], psId, nmdc);
      assert forall x :: x in rawIds <==> x == rawIds[0] || x in rawIds[1..];
    }
  }

  /** Extending the raw identifiers by one extends their pairs by that identifier's pair, if any. */
  lemma {:induction false} EntriesSnoc(rawIds: seq<string>, x: string, psId: string, nmdc: bool)
    ensures Entries(rawIds + [x], psId, nmdc)
            == Entries(rawIds, psId, nmdc) + (if HasNmdcRecord(x) == nmdc then [(x, psId)] else [])
  {
    if rawIds == [] {
      assert rawIds + [x] == [x];
    } else {
      assert (rawIds + [x])[1..] == rawIds[1..] + [x];
      EntriesSnoc(rawIds[1..], x, psId, nmdc);
    }
  }

  /** Every identifier is a string, so `"nmdc:" in rawid` can test it; a number or NaN raises TypeError. */
  predicate AllStrings(ids: seq<Value>)
  {
    forall i :: 0 <= i < |ids| ==> ids[i].Str?
  }

  function Strings(ids: seq<Value>): (r: seq<string>)
    requires AllStrings(ids)
    ensures forall x :: x in r <==> Str(x) in ids
  {
    var r := seq(|ids|, i requires 0 <= i < |ids| => ids[i].s);
    assert forall x :: Str(x) in ids ==> x in r by {
      forall x | Str(x) in ids ensures x in r {
        var i :| 0 <= i < |ids| && ids[i] == Str(x);
        assert r[i] == x;
      }
    }
    r
  }

  /** The raw identifiers under each of the first `k` final placeholders are strings. */
  predicate Searchable(finals: seq<(string, string)>, k: nat, mapping: seq<Row>)
    requires k <= |finals| && MappingRows(mapping)
  {
    forall j :: 0 <= j < k ==> AllStrings(RawIdsUnder(mapping, finals[j].0))
  }

  /** The pairs of the first `k` final processed samples, in order. */
  function EntriesUpTo(finals: seq<(string, string)>, k: nat, mapping: seq<Row>, nmdc: bool): seq<(string, string)>
    requires k <= |finals| && MappingRows(mapping) && Searchable(finals, k, mapping)
  {
    if k == 0 then []
    else EntriesUpTo(finals, k - 1, mapping, nmdc)
           + Entries(Strings(RawIdsUnder(mapping, finals[k - 1].0)), finals[k - 1].1, nmdc)
  }

  /** One more final placeholder whose raw identifiers are strings adds their pairs. */
  lemma SearchableNext(finals: seq<(string, string)>, k: nat, mapping: seq<Row>)
    requires k < |finals| && MappingRows(mapping) && Searchable(finals, k, mapping)
    requires AllStrings(RawIdsUnder(mapping, finals[k].0))
    ensures Searchable(finals, k + 1, mapping)
    ensures EntriesUpTo(finals, k + 1, mapping, true)
            == EntriesUpTo(finals, k, mapping, true) + Entries(Strings(RawIdsUnder(mapping, finals[k].0)), finals[k].1, true)
    ensures EntriesUpTo(finals, k + 1, mapping, false)
            == EntriesUpTo(finals, k, mapping, false) + Entries(Strings(RawIdsUnder(mapping, finals[k].0)), finals[k].1, false)
  {
  }

  /**
   * The test `"nmdc:" in rawid` meets only strings exactly when every
   * mapping row under a final placeholder has a string raw identifier.
   */
  lemma SearchableRows(finals: seq<(string, string)>, mapping: seq<Row>)
    requires MappingRows(mapping)
    ensures Searchable(finals, |finals|, mapping) <==>
      forall j, i :: (0 <= j < |finals| && 0 <= i < |mapping|
                      && mapping[i]["processedsample_placeholder"] == Str(finals[j].0)) ==> RawId(mapping[i]).Str?
  {
    forall j, i | 0 <= j < |finals| && 0 <= i < |mapping| && mapping[i]["processedsample_placeholder"] == Str(finals[j].0)
      ensures RawId(mapping[i]) in RawIdsUnder(mapping, finals[j].0)
    {
      RawIdsUnderMembers(mapping, finals[j].0, RawId(mapping[i]));
    }
    if !Searchable(finals, |finals|, mapping) {
      var j :| 0 <= j < |finals| && !AllStrings(RawIdsUnder(mapping, finals[j].0));
      var ids := RawIdsUnder(mapping, finals[j].0);
      var a :| 0 <= a < |ids| && !ids[a].Str?;
      RawIdsUnderMembers(mapping, finals[j].0, ids[a]);
      assert ids[a] in ids;
    }
  }

  /** The change-sheet rows for the given pairs: an "update" of the raw data's "has_input" to the processed sample. */
  function ChangeRows(entries: seq<(string, string)>): (rows: seq<Row>)
    ensures |rows| == |entries|
  {
    seq(|entries|, i requires 0 <= i < |entries| => ChangeRecord(entries[i].0, "update", "has_input", entries[i].1))
  }

  /** The workflow-sheet rows for the given pairs: biosample, raw data identifier, last processed sample. */
  function WorkflowRows(biosample: string, entries: seq<(string, string)>): (rows: seq<Row>)
    ensures |rows| == |entries|
  {
    seq(|entries|, i requires 0 <= i < |entries| => WorkflowRecord(biosample, entries[i].0, entries[i].1))
  }

  /** The rows of the pairs up to a raw identifier with an NMDC record, followed by its change-sheet row, are the rows of the pairs up to and including it. */
  lemma ChangeRowsStep(rows0: seq<Row>, done: seq<(string, string)>, rawIds: seq<string>, j: nat, psId: string)
    requires j < |rawIds| && HasNmdcRecord(rawIds[j])
    ensures rows0 + ChangeRows(done + Entries(rawIds[..j], psId, true)) + [ChangeRecord(rawIds[j], "update", "has_input", psId)]
            == rows0 + ChangeRows(done + Entries(rawIds[..j + 1], psId, true))
    ensures Entries(rawIds[..j + 1], psId, false) == Entries(rawIds[..j], psId, false)
  {
    var x, e := rawIds[j], Entries(rawIds[..j], psId, true);
    assert rawIds[..j + 1] == rawIds[..j] + [x];
    EntriesSnoc(rawIds[..j], x, psId, true);
    EntriesSnoc(rawIds[..j], x, psId, false);
    assert done + e + [(x, psId)] == done + (e + [(x, psId)]);
    assert ChangeRows(done + e) + [ChangeRecord(x, "update", "has_input", psId)] == ChangeRows(done + e + [(x, psId)]);
  }

  /** The rows of the pairs up to a raw identifier without an NMDC record, followed by its workflow-sheet row, are the rows of the pairs up to and including it. */
  lemma WorkflowRowsStep(rows0: seq<Row>, biosample: string, done: seq<(string, string)>, rawIds: seq<string>, j: nat, psId: string)
    requires j < |rawIds| && !HasNmdcRecord(rawIds[j])
    ensures rows0 + WorkflowRows(biosample, done + Entries(rawIds[..j], psId, false)) + [WorkflowRecord(biosample, rawIds[j], psId)]
            == rows0 + WorkflowRows(biosample, done + Entries(rawIds[..j + 1], psId, false))
    ensures Entries(rawIds[..j + 1], psId, true) == Entries(rawIds[..j], psId, true)
  {
    var x, e := rawIds[j], Entries(rawIds[..j], psId, false);
    assert rawIds[..j + 1] == rawIds[..j] + [x];
    EntriesSnoc(rawIds[..j], x, psId, true);
    EntriesSnoc(rawIds[..j], x, psId, false);
    assert done + e + [(x, psId)] == done + (e + [(x, psId)]);
    assert WorkflowRows(biosample, done + e) + [WorkflowRecord(biosample, x, psId)] == WorkflowRows(biosample, done + e + [(x, psId)]);
  }

  /**
   * The rows of one final processed sample `psId`: each raw identifier
   * under its placeholder, in order, goes to the change sheet when it names
   * an NMDC record and to the workflow sheet otherwise.
   */
  method AddFinalSampleRows(biosample: string, rawIds: seq<string>, psId: string, cs0: Table, ws0: Table,
                            ghost changesheet: Table, ghost workflowsheet: Table,
                            ghost doneC: seq<(string, string)>, ghost doneW: seq<(string, string)>)
    returns (cs: Table, ws: Table)
    requires WellFormed(cs0) && WellFormed(ws0)
    requires cs0 == Table(ChangeSheetColumns, changesheet.rows + ChangeRows(doneC))
    requires ws0 == Table(WorkflowSheetColumns, workflowsheet.rows + WorkflowRows(biosample, doneW))
    ensures WellFormed(cs) && WellFormed(ws)
    ensures cs == Table(ChangeSheetColumns, changesheet.rows + ChangeRows(doneC + Entries(rawIds, psId, true)))
    ensures ws == Table(WorkflowSheetColumns,
                        workflowsheet.rows + WorkflowRows(biosample, doneW + Entries(rawIds, psId, false)))
  {
    cs, ws := cs0, ws0;
    assert rawIds[..0] == [];
    assert doneC + Entries(rawIds[..0], psId, true) == doneC;
    assert doneW + Entries(rawIds[..0], psId, false) == doneW;
    var j := 0;
    while j < |rawIds|
      invariant 0 <= j <= |rawIds| && WellFormed(cs) && WellFormed(ws)
      invariant cs == Table(ChangeSheetColumns, changesheet.rows + ChangeRows(doneC + Entries(rawIds[..j], psId, true)))
      invariant ws == Table(WorkflowSheetColumns,
                            workflowsheet.rows + WorkflowRows(biosample, doneW + Entries(rawIds[..j], psId, false)))
    {
      if HasNmdcRecord(rawIds[j]) {
        ChangeSheetAppends(cs, rawIds[j], "update", "has_input", psId);
        ChangeRowsStep(changesheet.rows, doneC, rawIds, j, psId);
        cs := ChangeSheetAddRow(cs, rawIds[j], "update", "has_input", psId);
      } else {
        WorkflowSheetAppends(ws, biosample, rawIds[j], psId);
        WorkflowRowsStep(workflowsheet.rows, biosample, doneW, rawIds, j, psId);
        ws := WorkflowSheetAddRow(ws, biosample, rawIds[j], psId);
      }
      j := j + 1;
    }
    assert rawIds[..j] == rawIds;
  }

  /**
   * `map_final_samples`, on a change sheet and a workflow sheet as
   * `initialize_empty_df` shapes them: for every final processed sample, in
   * order, each distinct raw identifier under its placeholder becomes an
   * "update"/"has_input" change-sheet row when it names an NMDC record and a
   * workflow-sheet row otherwise, appended after the existing rows; the rows
   * whose raw identifier fell under no final placeholder are returned as
   * unmatched, NaN identifiers included. A raw identifier under a final
   * placeholder that is not a string makes `"nmdc:" in rawid` raise
   * TypeError; `add_row` builds new frames, so the sheets passed in are
   * left as they were.
   */
  method MapFinalSamples(biosample: string, finals: seq<(string, string)>, mapping: seq<Row>,
                         changesheet: Table, workflowsheet: Table)
    returns (r: Result<(seq<Row>, Table, Table)>)
    requires MappingRows(mapping) && WellFormed(changesheet) && WellFormed(workflowsheet)
    requires changesheet.columns == ChangeSheetColumns && workflowsheet.columns == WorkflowSheetColumns
    ensures r.Err? <==> !Searchable(finals, |finals|, mapping)
    ensures r.Err? ==> r.error.kind == TypeError
    ensures r.Ok? ==>
      r.value.1 == Table(ChangeSheetColumns, changesheet.rows + ChangeRows(EntriesUpTo(finals, |finals|, mapping, true)))
    ensures r.Ok? ==>
      r.value.2 == Table(WorkflowSheetColumns,
                         workflowsheet.rows + WorkflowRows(biosample, EntriesUpTo(finals, |finals|, mapping, false)))
    ensures r.Ok? ==> r.value.0 == RowsWithRawIdIn(mapping, UnmatchedFrom(AllRawIds(mapping), finals, 0, mapping))
  {
    var unmatchedIds := AllRawIds(mapping);
    var cs, ws := changesheet, workflowsheet;
    var k := 0;
    while k < |finals|
      invariant 0 <= k <= |finals| && WellFormed(cs) && WellFormed(ws)
      invariant Searchable(finals, k, mapping)
      invariant cs == Table(ChangeSheetColumns, changesheet.rows + ChangeRows(EntriesUpTo(finals, k, mapping, true)))
      invariant ws == Table(WorkflowSheetColumns, workflowsheet.rows + WorkflowRows(biosample, EntriesUpTo(finals, k, mapping, false)))
      invariant UnmatchedFrom(AllRawIds(mapping), finals, 0, mapping) == UnmatchedFrom(unmatchedIds, finals, k, mapping)
    {
      var placeholder, psId := finals[k].0, finals[k].1;
      var rawIds := RawIdsUnder(mapping, placeholder);
      if !AllStrings(rawIds) {
        return Err(Error(TypeError, ["raw_data_identifier"]));
      }
      SearchableNext(finals, k, mapping);
      cs, ws := AddFinalSampleRows(biosample, Strings(rawIds), psId, cs, ws, changesheet, workflowsheet,
                                   EntriesUpTo(finals, k, mapping, true), EntriesUpTo(finals, k, mapping, false));
      unmatchedIds := RemoveAll(unmatchedIds, rawIds);
      k := k + 1;
    }
    return Ok((RowsWithRawIdIn(mapping, unmatchedIds), cs, ws));
  }

  /** The raw identifier of `e` sits under the placeholder of the `j`-th final processed sample, and `e` names that sample. */
  ghost predicate UnderFinal(finals: seq<(string, string)>, j: nat, mapping: seq<Row>, e: (string, string))
    requires j < |finals| && MappingRows(mapping)
  {
    e.1 == finals[j].1 && MappedTo(mapping, Str(e.0), finals[j].0)
  }

  /** A pair is among the first `k` final processed samples' pairs exactly when its raw identifier sits under that sample's placeholder. */
  lemma {:induction false} EntriesUpToMembers(finals: seq<(string, string)>, k: nat, mapping: seq<Row>, nmdc: bool,
                                              e: (string, string))
    requires k <= |finals| && MappingRows(mapping) && Searchable(finals, k, mapping)
    ensures e in EntriesUpTo(finals, k, mapping, nmdc) <==>
      HasNmdcRecord(e.0) == nmdc && exists j :: 0 <= j < k && UnderFinal(finals, j, mapping, e)
  {
    if k > 0 {
      EntriesUpToMembers(finals, k - 1, mapping, nmdc, e);
      var rawIds := Strings(RawIdsUnder(mapping, finals[k - 1].0));
      EntriesMembers(rawIds, finals[k - 1].1, nmdc);
      RawIdsUnderMembers(mapping, finals[k - 1].0, Str(e.0));
      var init, last := EntriesUpTo(finals, k - 1, mapping, nmdc), Entries(rawIds, finals[k - 1].1, nmdc);
      assert EntriesUpTo(finals, k, mapping, nmdc) == init + last;
      if e in last {
        assert UnderFinal(finals, k - 1, mapping, e);
      } else if HasNmdcRecord(e.0) == nmdc && e !in init {
        forall j | 0 <= j < k ensures !UnderFinal(finals, j, mapping, e) {
        }
      }
    }
  }

  /**
   * Which rows `map_final_samples` writes: a change-sheet row for exactly the
   * (raw identifier with an NMDC record, final processed sample) pairs whose
   * raw identifier sits under that sample's placeholder, and a workflow-sheet
   * row for exactly the pairs whose raw data has no NMDC record.
   */
  lemma MapFinalSamplesSheets(finals: seq<(string, string)>, mapping: seq<Row>, rawId: string, psId: string)
    requires MappingRows(mapping) && Searchable(finals, |finals|, mapping)
    ensures (rawId, psId) in EntriesUpTo(finals, |finals|, mapping, true) <==>
      HasNmdcRecord(rawId) && exists j :: 0 <= j < |finals| && UnderFinal(finals, j, mapping, (rawId, psId))
    ensures (rawId, psId) in EntriesUpTo(finals, |finals|, mapping, false) <==>
      !HasNmdcRecord(rawId) && exists j :: 0 <= j < |finals| && UnderFinal(finals, j, mapping, (rawId, psId))
  {
    EntriesUpToMembers(finals, |finals|, mapping, true, (rawId, psId));
    EntriesUpToMembers(finals, |finals|, mapping, false, (rawId, psId));
  }

  lemma {:induction false} UnmatchedFromMembers(ids: seq<Value>, finals: seq<(string, string)>, k: nat, mapping: seq<Row>,
                                                x: Value)
    requires k <= |finals| && MappingRows(mapping)
    ensures x in UnmatchedFrom(ids, finals, k, mapping) <==>
      x in ids && forall j :: k <= j < |finals| ==> !MappedTo(mapping, x, finals[j].0)
    decreases |finals| - k
  {
    if k < |finals| {
      RawIdsUnderMembers(mapping, finals[k].0, x);
      UnmatchedFromMembers(RemoveAll(ids, RawIdsUnder(mapping, finals[k].0)), finals, k + 1, mapping, x);
    }
  }

  /**
   * The unmatched rows `map_final_samples` returns: exactly the mapping rows
   * whose raw identifier appears under none of the final processed samples'
   * placeholders.
   */
  lemma MapFinalSamplesUnmatched(finals: seq<(string, string)>, mapping: seq<Row>, row: Row)
    requires MappingRows(mapping)
    ensures row in RowsWithRawIdIn(mapping, UnmatchedFrom(AllRawIds(mapping), finals, 0, mapping)) <==>
      row in mapping && forall j :: 0 <= j < |finals| ==> !MappedTo(mapping, RawId(row), finals[j].0)
  {
    if row in mapping {
      UnmatchedFromMembers(AllRawIds(mapping), finals, 0, mapping, RawId(row));
      var ids := seq(|mapping|, i requires 0 <= i < |mapping| => RawId(mapping[i]));
      var i :| 0 <= i < |mapping| && mapping[i] == row;
      assert ids[i] == RawId(row);
    }
  }
}
