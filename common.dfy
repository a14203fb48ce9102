/**
 * Shared vocabulary of the model: Python's None and exceptions, the values
 * that sit in pandas cells and JSON documents, and the handful of `str`
 * operations the generators rely on.
 */
module Common {

  datatype Option<T> = None | Some(value: T)

  /** The Python exception classes the generators raise. */
  datatype ErrorKind =
    | RuntimeError
    | ValueError
    | KeyError
    | IndexError
    | FileNotFoundError
    | AttributeError
    | NameError
    | TypeError

  /** A raised exception: its class and the names its message lists
      (missing columns, unknown types, ...). */
  datatype Error = Error(kind: ErrorKind, names: seq<string>)

  datatype Result<T> = Ok(value: T) | Err(error: Error)

  function Raise<T>(kind: ErrorKind): Result<T>
  {
    Err(Error(kind, []))
  }

  /**
   * A value as found in a pandas cell, a YAML outline or a JSON document.
   * `Null` is Python's None; `NaN` is the float NaN pandas uses for empty
   * cells. Floats other than NaN are not modelled (integers stand in).
   */
  datatype Value =
    | Null
    | NaN
    | Str(s: string)
    | Int(i: int)
    | Bool(b: bool)
    | List(items: seq<Value>)
    | Dict(entries: map<string, Value>)

  /** A data-frame row or a keyword dictionary. */
  type Row = map<string, Value>

  /** `pd.isnull`: None and NaN. */
  predicate IsNull(v: Value)
  {
    v.Null? || v.NaN?
  }

  /** Python truthiness; NaN is a non-zero float, hence truthy. */
  predicate Truthy(v: Value)
  {
    match v
    case Null => false
    case NaN => true
    case Str(s) => s != ""
    case Int(i) => i != 0
    case Bool(b) => b
    case List(xs) => xs != []
    case Dict(m) => m != map[]
  }

  /** `row.get(key)`: the value, or None when the key is absent. */
  function Get(r: Row, key: string): Value
  {
    if key in r then r[key] else Null
  }

  // ---------------------------------------------------------------------
  // Characters and numbers
  // ---------------------------------------------------------------------

  predicate IsDigit(c: char)
  {
    '0' <= c <= '9'
  }

  predicate AllDigits(s: string)
  {
    forall i :: 0 <= i < |s| ==> IsDigit(s[i])
  }

  /** The characters `str.isspace()` accepts below U+00A1. */
  predicate IsSpace(c: char)
  {
    c == ' ' || c == '\t' || c == '\n' || c == '\r' || c == '\U{0B}' || c == '\U{0C}'
    || ('\U{1C}' <= c <= '\U{1F}') || c == '\U{85}' || c == '\U{A0}'
  }

  function DigitChar(d: nat): (c: char)
    requires d < 10
    ensures IsDigit(c)
  {
    ('0' as int + d) as char
  }

  function DigitValue(c: char): (d: nat)
    requires IsDigit(c)
    ensures d < 10 && DigitChar(d) == c
  {
    (c as int - '0' as int)
  }

  /** Decimal value of a run of digits (`int("007") == 7`). */
  function DigitsValue(s: string): nat
    requires AllDigits(s)
  {
    if s == [] then 0 else DigitsValue(s[..|s| - 1]) * 10 + DigitValue(s[|s| - 1])
  }

  /** `str(n)` for a natural number: no leading zero except for 0 itself. */
  function NatToString(n: nat): (r: string)
    ensures |r| >= 1 && AllDigits(r)
    ensures |r| > 1 ==> r[0] != '0'
  {
    if n < 10 then [DigitChar(n)] else NatToString(n / 10) + [DigitChar(n % 10)]
  }

  /** `str(i)` for an integer. */
  function IntToString(i: int): string
  {
    if i < 0 then "-" + NatToString(-i) else NatToString(i)
  }

  lemma {:induction false} NatToStringRoundTrip(n: nat)
    ensures DigitsValue(NatToString(n)) == n
  {
    if n >= 10 {
      NatToStringRoundTrip(n / 10);
      var s, d := NatToString(n), DigitChar(n % 10);
      assert s == NatToString(n / 10) + [d];
      assert s[..|s| - 1] == NatToString(n / 10) && s[|s| - 1] == d;
      assert DigitValue(d) == n % 10;
    } else {
      assert DigitValue(DigitChar(n)) == n;
    }
  }

  /**
   * `int(token)` for a token without surrounding blanks: an optional sign
   * followed by at least one ASCII digit; anything else is None (ValueError).
   */
  function ParseInt(t: string): (r: Option<int>)
    ensures r.Some? ==> |t| >= 1
  {
    if |t| >= 1 && (t[0] == '-' || t[0] == '+') then
      var body := t[1..];
      if body != [] && AllDigits(body) then
        var v: int := DigitsValue(body);
        Some(if t[0] == '-' then -v else v)
      else None
    else if t != [] && AllDigits(t) then Some(DigitsValue(t))
    else None
  }

  lemma ParseIntRoundTrip(i: int)
    ensures ParseInt(IntToString(i)) == Some(i)
  {
    if i < 0 {
      var n: nat := -i;
      NatToStringRoundTrip(n);
      ParseSignedDigits(NatToString(n));
    } else {
      NatToStringRoundTrip(i);
      ParseDigits(NatToString(i));
    }
  }

  lemma ParseDigits(body: string)
    requires body != [] && AllDigits(body)
    ensures ParseInt(body) == Some(DigitsValue(body))
  {
    assert IsDigit(body[0]);
  }

  lemma ParseSignedDigits(body: string)
    requires body != [] && AllDigits(body)
    ensures ParseInt("-" + body) == Some(-(DigitsValue(body) as int))
  {
    var t := "-" + body;
    assert t[1..] == body;
  }

  // ---------------------------------------------------------------------
  // Strings
  // ---------------------------------------------------------------------

  /** Python's `sub in s` on strings. */
  predicate IsSubstring(sub: string, s: string)
  {
    exists i :: 0 <= i <= |s| - |sub| && OccursAt(sub, s, i)
  }

  /** `sub in s`, searched from the front. */
  predicate Contains(sub: string, s: string)
    decreases |s|
  {
    (|sub| <= |s| && s[..|sub|] == sub) || (s != [] && Contains(sub, s[1..]))
  }

  /** The search from the front finds exactly the substrings. */
  lemma {:induction false} ContainsIsSubstring(sub: string, s: string)
    ensures Contains(sub, s) <==> IsSubstring(sub, s)
    decreases |s|
  {
    if |sub| <= |s| && s[..|sub|] == sub {
      assert OccursAt(sub, s, 0);
    }
    if s != [] {
      ContainsIsSubstring(sub, s[1..]);
      if Contains(sub, s[1..]) {
        var i :| 0 <= i <= |s[1..]| - |sub| && OccursAt(sub, s[1..], i);
        assert s[i + 1..i + 1 + |sub|] == s[1..][i..i + |sub|];
        assert OccursAt(sub, s, i + 1);
      }
      if IsSubstring(sub, s) {
        var i :| 0 <= i <= |s| - |sub| && OccursAt(sub, s, i);
        if i > 0 {
          assert s[1..][i - 1..i - 1 + |sub|] == s[i..i + |sub|];
          assert OccursAt(sub, s[1..], i - 1);
        }
      }
    } else if IsSubstring(sub, s) {
      var i :| 0 <= i <= |s| - |sub| && OccursAt(sub, s, i);
      assert s[..|sub|] == s[i..i + |sub|];
    }
  }

  /** `sub` occurs in `s` starting at index `i`. */
  predicate OccursAt(sub: string, s: string, i: int)
  {
    0 <= i <= |s| - |sub| && s[i..i + |sub|] == sub
  }

  predicate StartsWith(s: string, prefix: string)
  {
    |prefix| <= |s| && s[..|prefix|] == prefix
  }

  function TrimLeft(s: string): (r: string)
    ensures |r| <= |s| && r == s[|s| - |r|..]
    ensures r == [] || !IsSpace(r[0])
  {
    if s != [] && IsSpace(s[0]) then TrimLeft(s[1..]) else s
  }

  function TrimRight(s: string): (r: string)
    ensures |r| <= |s| && r == s[..|r|]
    ensures r == [] || !IsSpace(r[|r| - 1])
  {
    if s != [] && IsSpace(s[|s| - 1]) then TrimRight(s[..|s| - 1]) else s
  }

  /** `s.strip()`: a slice of `s` with no blank at either end. */
  function Strip(s: string): (r: string)
    ensures r == [] || (!IsSpace(r[0]) && !IsSpace(r[|r| - 1]))
    ensures IsSubstring(r, s)
  {
    var l := TrimLeft(s);
    var r := TrimRight(l);
    assert OccursAt(r, s, |s| - |l|);
    r
  }

  lemma StripIdempotent(s: string)
    ensures Strip(Strip(s)) == Strip(s)
  {
    var t := Strip(s);
    if t != [] {
      assert TrimLeft(t) == t;
      assert TrimRight(t) == t;
    }
  }

  /** Index of the first occurrence of `c` in `s`. */
  function IndexOf(s: string, c: char): (i: nat)
    requires c in s
    ensures i < |s| && s[i] == c && c !in s[..i]
  {
    if s[0] == c then 0 else 1 + IndexOf(s[1..], c)
  }

  /** `s.split(sep)` for a one-character separator. */
  function SplitOn(s: string, sep: char): (r: seq<string>)
    ensures |r| >= 1
    ensures forall k :: 0 <= k < |r| ==> sep !in r[k]
    decreases |s|
  {
    if sep !in s then [s]
    else
      var i := IndexOf(s, sep);
      [s[..i]] + SplitOn(s[i + 1..], sep)
  }

  /** The first `c` of `a + [c] + b` is the one after `a` when `a` has none. */
  lemma {:induction false} IndexOfAfter(a: string, c: char, b: string)
    requires c !in a
    ensures IndexOf(a + [c] + b, c) == |a|
  {
    if a != [] {
      assert (a + [c] + b)[1..] == a[1..] + [c] + b;
      IndexOfAfter(a[1..], c, b);
    }
  }

  /** Splitting at the first separator: the piece before it, then the pieces of the rest. */
  lemma SplitOnAfter(a: string, sep: char, b: string)
    requires sep !in a
    ensures SplitOn(a + [sep] + b, sep) == [a] + SplitOn(b, sep)
  {
    var s := a + [sep] + b;
    IndexOfAfter(a, sep, b);
    assert s[|a|] == sep && s[..|a|] == a && s[|a| + 1..] == b;
  }

  /** `s.split()` with no argument: the maximal runs of non-blank characters. */
  function Tokens(s: string): (r: seq<string>)
    ensures forall k :: 0 <= k < |r| ==> r[k] != []
    decreases |s|
  {
    var t := TrimLeft(s);
    if t == [] then []
    else
      var n := TokenLength(t);
      assert |t[n..]| == |t| - n < |s|;
      var more := Tokens(t[n..]);
      TokensCons(t[..n], more);
      [t[..n]] + more
  }

  lemma TokensCons(token: string, more: seq<string>)
    requires token != []
    requires forall k :: 0 <= k < |more| ==> more[k] != []
    ensures forall k :: 0 <= k < |[token] + more| ==> ([token] + more)[k] != []
  {
  }

  /** Length of the leading run of non-blank characters. */
  function TokenLength(t: string): (n: nat)
    requires t != [] && !IsSpace(t[0])
    ensures 1 <= n <= |t|
  {
    if |t| == 1 || IsSpace(t[1]) then 1 else 1 + TokenLength(t[1..])
  }

  // ---------------------------------------------------------------------
  // Paths (pathlib's `name`, `suffix`, `stem` and `suffixes`, POSIX flavour)
  // ---------------------------------------------------------------------

  /** The path without the slashes that end it. */
  function TrimTrailingSlashes(p: string): (r: string)
    ensures |r| <= |p| && r == p[..|r|]
    ensures r == [] || r[|r| - 1] != '/'
  {
    if p != [] && p[|p| - 1] == '/' then TrimTrailingSlashes(p[..|p| - 1]) else p
  }

  /** What follows the last slash. */
  function AfterLastSlash(p: string): (r: string)
    ensures |r| <= |p| && r == p[|p| - |r|..]
    ensures '/' !in r
    ensures |r| < |p| ==> p[|p| - |r| - 1] == '/'
  {
    if p == [] || p[|p| - 1] == '/' then []
    else
      var init, c := p[..|p| - 1], p[|p| - 1];
      var r := AfterLastSlash(init);
      var m := |init| - |r|;
      SliceSnoc(p, m);
      var res := r + [c];
      assert |res| == |r| + 1 && res == p[m..] && |p| - |res| == m;
      assert '/' !in res;
      res
  }

  /** A slice of the front part, then the last element, is the slice of the whole. */
  lemma SliceSnoc<T>(p: seq<T>, m: nat)
    requires m < |p|
    ensures p[..|p| - 1][m..] + [p[|p| - 1]] == p[m..]
    ensures m > 0 ==> p[..|p| - 1][m - 1] == p[m - 1]
  {
  }

  /** `Path(p).name`: the last component of the path. */
  function PathName(p: string): (name: string)
    ensures '/' !in name
    ensures var t := TrimTrailingSlashes(p); |name| <= |t| && name == t[|t| - |name|..]
  {
    AfterLastSlash(TrimTrailingSlashes(p))
  }

  /** `name.rfind('.')`: the index of the last dot, when there is one. */
  function LastDot(name: string): (i: Option<nat>)
    ensures i.None? <==> '.' !in name
    ensures i.Some? ==> i.value < |name| && name[i.value] == '.' && '.' !in name[i.value + 1..]
  {
    if name == [] then None
    else if name[|name| - 1] == '.' then Some(|name| - 1)
    else
      var i := LastDot(name[..|name| - 1]);
      if i.Some? then
        assert name[i.value + 1..] == name[..|name| - 1][i.value + 1..] + [name[|name| - 1]];
        i
      else
        assert name == name[..|name| - 1] + [name[|name| - 1]];
        None
  }

  /** Where the suffix of a file name begins: at its last dot, unless that dot starts or ends the name. */
  function SuffixStart(name: string): (i: nat)
    ensures i <= |name|
  {
    var d := LastDot(name);
    if d.Some? && 0 < d.value < |name| - 1 then d.value else |name|
  }

  /** `Path.suffix` of a file name: "" or a dot followed by at least one character and no other dot. */
  function PathSuffix(name: string): (s: string)
    ensures s == [] || (|s| >= 2 && s[0] == '.' && '.' !in s[1..])
    ensures s != [] ==> |s| < |name| && '.' !in name[|name| - |s| + 1..]
  {
    name[SuffixStart(name)..]
  }

  /** `Path.stem` of a file name: the name without its suffix, so the two make up the name. */
  function PathStem(name: string): (s: string)
    ensures s + PathSuffix(name) == name
    ensures PathSuffix(name) != [] ==> s != []
  {
    assert name[..SuffixStart(name)] + name[SuffixStart(name)..] == name;
    name[..SuffixStart(name)]
  }

  // ---------------------------------------------------------------------
  // Lexicographic order (Python's `<` on str)
  // ---------------------------------------------------------------------

  predicate LexLess(a: string, b: string)
  {
    if a == [] then b != []
    else if b == [] then false
    else if a[0] != b[0] then a[0] < b[0]
    else LexLess(a[1..], b[1..])
  }

  lemma {:induction false} LexIrreflexive(a: string)
    ensures !LexLess(a, a)
  {
    if a != [] {
      LexIrreflexive(a[1..]);
    }
  }

  lemma {:induction false} LexTransitive(a: string, b: string, c: string)
    requires LexLess(a, b) && LexLess(b, c)
    ensures LexLess(a, c)
  {
    if a != [] && b != [] && c != [] && a[0] == b[0] && b[0] == c[0] {
      LexTransitive(a[1..], b[1..], c[1..]);
    }
  }

  lemma {:induction false} LexTotal(a: string, b: string)
    ensures a == b || LexLess(a, b) || LexLess(b, a)
  {
    if a != [] && b != [] && a[0] == b[0] {
      LexTotal(a[1..], b[1..]);
      if a[1..] == b[1..] {
        assert a == [a[0]] + a[1..] && b == [b[0]] + b[1..];
      }
    }
  }

  lemma LexAsymmetric(a: string, b: string)
    requires LexLess(a, b)
    ensures !LexLess(b, a)
  {
    if LexLess(b, a) {
      LexTransitive(a, b, a);
      LexIrreflexive(a);
    }
  }

  predicate LexSorted(s: seq<string>)
  {
    forall i, j :: 0 <= i < j < |s| ==> !LexLess(s[j], s[i])
  }

  function InsertString(x: string, s: seq<string>): (r: seq<string>)
    requires LexSorted(s)
    ensures LexSorted(r) && multiset(r) == multiset(s) + multiset{x}
  {
    if s == [] then [x]
    else if !LexLess(x, s[|s| - 1]) then
      AppendSorted(x, s);
      s + [x]
    else
      var init := s[..|s| - 1];
      InsertBeforeLast(x, s, InsertString(x, init));
      InsertString(x, init) + [s[|s| - 1]]
  }

  /** A string no smaller than the last of a sorted sequence keeps it sorted when appended. */
  lemma AppendSorted(x: string, s: seq<string>)
    requires LexSorted(s) && s != [] && !LexLess(x, s[|s| - 1])
    ensures LexSorted(s + [x])
  {
    forall i | 0 <= i < |s| ensures !LexLess(x, s[i]) {
      if LexLess(x, s[i]) {
        LexTotal(s[i], s[|s| - 1]);
        if s[i] != s[|s| - 1] {
          LexAsymmetric(s[i], s[|s| - 1]);
          LexTransitive(x, s[i], s[|s| - 1]);
        }
      }
    }
  }

  /**
   * A string smaller than the last of a sorted sequence: inserted into the
   * rest as `mid`, the last one still comes after all of it.
   */
  lemma InsertBeforeLast(x: string, s: seq<string>, mid: seq<string>)
    requires LexSorted(s) && s != [] && LexLess(x, s[|s| - 1])
    requires LexSorted(mid) && multiset(mid) == multiset(s[..|s| - 1]) + multiset{x}
    ensures LexSorted(mid + [s[|s| - 1]]) && multiset(mid + [s[|s| - 1]]) == multiset(s) + multiset{x}
  {
    var init, last := s[..|s| - 1], s[|s| - 1];
    assert s == init + [last];
    var r := mid + [last];
    forall y | y in multiset(mid) ensures !LexLess(last, y) {
      if y == x {
        LexAsymmetric(x, last);
      } else {
        assert y in multiset(init);
        var k :| 0 <= k < |init| && init[k] == y;
        assert s[k] == y;
      }
    }
    forall i | 0 <= i < |r| - 1 ensures !LexLess(last, r[i]) {
      assert r[i] in multiset(mid);
    }
  }

  /** `sorted(names)` on strings. */
  function SortStrings(s: seq<string>): (r: seq<string>)
    ensures LexSorted(r) && multiset(r) == multiset(s)
  {
    if s == [] then []
    else
      assert s == s[..|s| - 1] + [s[|s| - 1]];
      InsertString(s[|s| - 1], SortStrings(s[..|s| - 1]))
  }

  // ---------------------------------------------------------------------
  // Sequences
  // ---------------------------------------------------------------------

  predicate NoDuplicates<T(==)>(s: seq<T>)
  {
    forall i, j :: 0 <= i < j < |s| ==> s[i] != s[j]
  }

  /** Appending one element keeps the sequence as the prefix before it. */
  lemma AppendLast<T>(s: seq<T>, x: T)
    ensures (s + [x])[..|s|] == s && (s + [x])[|s|] == x
  {
  }

  /** Prefixes of prefixes, and the whole sequence as its own prefix. */
  lemma PrefixStep<T>(s: seq<T>, k: nat)
    requires k < |s|
    ensures s[..k + 1][..k] == s[..k] && s[..|s|] == s
  {
  }

  lemma AppendAssoc<T>(a: seq<T>, b: seq<T>, c: seq<T>)
    ensures a + (b + c) == (a + b) + c
  {
  }

  lemma NoDuplicatesPrefix<T>(s: seq<T>, n: nat)
    requires n <= |s| && NoDuplicates(s)
    ensures NoDuplicates(s[..n])
  {
    assert forall i :: 0 <= i < n ==> s[..n][i] == s[i];
  }

  /** In a sequence without duplicates every element occurs once. */
  lemma {:induction false} NoDuplicatesOnce<T>(s: seq<T>, x: T)
    requires NoDuplicates(s)
    ensures multiset(s)[x] <= 1
  {
    if s != [] {
      var init := s[..|s| - 1];
      NoDuplicatesPrefix(s, |s| - 1);
      NoDuplicatesOnce(init, x);
      assert s == init + [s[|s| - 1]];
      assert forall i :: 0 <= i < |init| ==> init[i] == s[i] && init[i] != s[|s| - 1];
    }
  }

  /** A permutation of a sequence without duplicates has none either. */
  lemma NoDuplicatesPermutation<T>(s: seq<T>, r: seq<T>)
    requires NoDuplicates(s) && multiset(r) == multiset(s)
    ensures NoDuplicates(r)
  {
    forall i, j | 0 <= i < j < |r| ensures r[i] != r[j] {
      NoDuplicatesOnce(s, r[i]);
      RepeatCounted(r, i, j);
    }
  }

  /** An element at two positions occurs at least twice. */
  lemma RepeatCounted<T>(r: seq<T>, i: nat, j: nat)
    requires i < j < |r|
    ensures r[i] == r[j] ==> multiset(r)[r[i]] >= 2
  {
    assert r == r[..j] + [r[j]] + r[j + 1..];
    assert r[i] in multiset(r[..j]);
  }

  /** The elements of `s` in first-occurrence order (`pd.unique`, `dict.fromkeys`). */
  function Dedup<T(==,!new)>(s: seq<T>): (r: seq<T>)
    ensures NoDuplicates(r)
    ensures forall x :: x in r <==> x in s
    ensures |r| <= |s|
  {
    if s == [] then []
    else
      var init := Dedup(s[..|s| - 1]);
      assert forall x :: x in s[..|s| - 1] ==> x in s;
      assert forall x :: x in s ==> x in s[..|s| - 1] || x == s[|s| - 1];
      if s[|s| - 1] in init then init else init + [s[|s| - 1]]
  }

  /** Keys paired with items, sorted by key. */
  predicate KeySorted<T>(s: seq<(int, T)>)
  {
    forall i, j :: 0 <= i < j < |s| ==> s[i].0 <= s[j].0
  }

  /** Inserts after every element whose key is at most `x`'s, which keeps the sort stable. */
  function InsertByKey<T(==)>(x: (int, T), s: seq<(int, T)>): (r: seq<(int, T)>)
    requires KeySorted(s)
    ensures |r| == |s| + 1
    ensures KeySorted(r)
    ensures multiset(r) == multiset(s) + multiset{x}
  {
    var k := InsertPosition(x.0, s);
    InsertedAt(x, s, k);
    s[..k] + [x] + s[k..]
  }

  /** The number of leading elements of a sorted sequence whose key is at most `key`. */
  function InsertPosition<T>(key: int, s: seq<(int, T)>): (k: nat)
    requires KeySorted(s)
    ensures k <= |s|
    ensures forall i :: 0 <= i < k ==> s[i].0 <= key
    ensures forall i :: k <= i < |s| ==> key < s[i].0
  {
    if s == [] || s[|s| - 1].0 <= key then |s|
    else
      var init := s[..|s| - 1];
      assert forall i :: 0 <= i < |init| ==> init[i] == s[i];
      InsertPosition(key, init)
  }

  /** Putting `x` between the elements at most its key and those above it keeps the keys sorted. */
  lemma InsertedAt<T>(x: (int, T), s: seq<(int, T)>, k: nat)
    requires KeySorted(s) && k <= |s|
    requires forall i :: 0 <= i < k ==> s[i].0 <= x.0
    requires forall i :: k <= i < |s| ==> x.0 < s[i].0
    ensures KeySorted(s[..k] + [x] + s[k..])
    ensures multiset(s[..k] + [x] + s[k..]) == multiset(s) + multiset{x}
  {
    var r := s[..k] + [x] + s[k..];
    forall i, j | 0 <= i < j < |r| ensures r[i].0 <= r[j].0 {
      InsertedElement(x, s, k, i);
      InsertedElement(x, s, k, j);
      if i < k && j > k {
        assert s[i].0 <= s[j - 1].0;
      }
    }
    assert s == s[..k] + s[k..];
    assert multiset(r) == multiset(s[..k]) + multiset{x} + multiset(s[k..]);
  }

  lemma InsertedElement<T>(x: T, s: seq<T>, k: nat, i: nat)
    requires k <= |s| && i <= |s|
    ensures (s[..k] + [x] + s[k..])[i] == if i < k then s[i] else if i == k then x else s[i - 1]
  {
  }

  /** `sorted(items, key=...)` on items paired with their integer key. */
  function SortByKey<T(==)>(s: seq<(int, T)>): (r: seq<(int, T)>)
    ensures KeySorted(r) && multiset(r) == multiset(s)
  {
    if s == [] then []
    else
      assert s == s[..|s| - 1] + [s[|s| - 1]];
      InsertByKey(s[|s| - 1], SortByKey(s[..|s| - 1]))
  }
}
