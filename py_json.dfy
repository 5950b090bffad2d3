/** Decoded JSON values and the handful of Python operations the parser
    applies to them (`in`, subscripting, `dict.get`, iteration, `len`,
    `str.strip`, truthiness).  An operation that Python would answer with an
    exception returns `Raise` instead of a value. */
module PyJson {

  datatype Option<+T> = None | Some(value: T)

  /** A value produced by `json.loads`.  Objects keep their members in
      insertion order, as a Python dict does.  Floating-point numbers are not
      modelled. */
  datatype Json =
    | JNull
    | JBool(b: bool)
    | JInt(n: int)
    | JStr(s: string)
    | JArr(items: seq<Json>)
    | JObj(fields: seq<(string, Json)>)

  /** The Python exceptions the parser can meet. */
  datatype Exc = TypeError | AttributeError | KeyError | JSONDecodeError

  /** The outcome of evaluating a Python expression: a value, or an exception. */
  datatype Py<+T> = Ok(value: T) | Raise(exc: Exc) {
    predicate IsFailure() { Raise? }
    function PropagateFailure<U>(): Py<U> {
      if Raise? then Raise(exc) else Raise(TypeError)
    }
    function Extract(): T requires Ok? { value }
  }

  /** Python truthiness of a JSON value. */
  predicate Truthy(j: Json) {
    match j
    case JNull => false
    case JBool(b) => b
    case JInt(n) => n != 0
    case JStr(s) => s != ""
    case JArr(items) => items != []
    case JObj(fields) => fields != []
  }

  /** `a or b`: the first operand when it is truthy, otherwise the second. */
  function PyOr(a: Json, b: Json): (r: Json)
    ensures Truthy(r) <==> Truthy(a) || Truthy(b)
  {
    if Truthy(a) then a else b
  }

  /** The value bound to `key`, looked up from the first member on. */
  function Lookup(fields: seq<(string, Json)>, key: string): Option<Json> {
    if |fields| == 0 then None
    else if fields[0].0 == key then Some(fields[0].1)
    else Lookup(fields[1..], key)
  }

  /** A key is found exactly when some member carries it, and the value found
      is that of the first such member. */
  lemma {:induction false} LookupFirst(fields: seq<(string, Json)>, key: string)
    ensures Lookup(fields, key).Some? <==> exists i :: 0 <= i < |fields| && fields[i].0 == key
    ensures Lookup(fields, key).Some? ==> exists i :: (0 <= i < |fields| && fields[i] == (key, Lookup(fields, key).value)
      && forall j :: 0 <= j < i ==> fields[j].0 != key)
  {
    if |fields| > 0 && fields[0].0 != key {
      LookupFirst(fields[1..], key);
      if Lookup(fields, key).Some? {
        var i :| 0 <= i < |fields[1..]| && fields[1..][i] == (key, Lookup(fields, key).value)
          && forall j :: 0 <= j < i ==> fields[1..][j].0 != key;
        assert fields[i + 1] == (key, Lookup(fields, key).value);
      } else {
        forall i | 0 <= i < |fields| ensures fields[i].0 != key {
          if i > 0 { assert fields[i] == fields[1..][i - 1]; }
        }
      }
    } else if |fields| > 0 {
      assert fields[0] == (key, Lookup(fields, key).value);
    }
  }

  /** `key in j` for a dict `j`. */
  predicate HasKey(j: Json, key: string) {
    j.JObj? && Lookup(j.fields, key).Some?
  }

  /** `j.get(key, default)`: only dicts have `get`. */
  function Get(j: Json, key: string, default: Json): (r: Py<Json>)
    ensures r.Raise? <==> !j.JObj?
    ensures r.Raise? ==> r.exc == AttributeError
    ensures HasKey(j, key) ==> r == Ok(Lookup(j.fields, key).value)
    ensures j.JObj? && !HasKey(j, key) ==> r == Ok(default)
  {
    if !j.JObj? then Raise(AttributeError)
    else match Lookup(j.fields, key)
      case None => Ok(default)
      case Some(v) => Ok(v)
  }

  /** `j[key]` with a string key. */
  function At(j: Json, key: string): (r: Py<Json>)
    ensures r.Ok? <==> HasKey(j, key)
    ensures r.Ok? ==> r.value == Lookup(j.fields, key).value
  {
    match j
    case JObj(fields) =>
      (match Lookup(fields, key)
       case None => Raise(KeyError)
       case Some(v) => Ok(v))
    case _ => Raise(TypeError)
  }

  /** `key in j`: member test on a dict, element test on a list, substring
      test on a string; any other value raises TypeError. */
  function PyIn(key: string, j: Json): (r: Py<bool>)
    ensures j.JObj? ==> r == Ok(HasKey(j, key))
    ensures r.Raise? <==> !(j.JObj? || j.JArr? || j.JStr?)
  {
    match j
    case JObj(_) => Ok(HasKey(j, key))
    case JArr(items) => Ok(JStr(key) in items)
    case JStr(s) => Ok(IndexOf(s, key, 0).Some?)
    case _ => Raise(TypeError)
  }

  /** The values a `for` loop over `j` visits: list elements, dict keys,
      one-character strings; any other value is not iterable. */
  function Iter(j: Json): (r: Py<seq<Json>>)
    ensures j.JArr? ==> r == Ok(j.items)
    ensures r.Raise? <==> !(j.JObj? || j.JArr? || j.JStr?)
    ensures r.Ok? && j.JObj? ==> (|r.value| == |j.fields|
      && forall i :: 0 <= i < |j.fields| ==> r.value[i] == JStr(j.fields[i].0))
    ensures r.Ok? && j.JStr? ==> (|r.value| == |j.s|
      && forall i :: 0 <= i < |j.s| ==> r.value[i] == JStr([j.s[i]]))
  {
    match j
    case JArr(items) => Ok(items)
    case JObj(fields) => Ok(seq(|fields|, i requires 0 <= i < |fields| => JStr(fields[i].0)))
    case JStr(s) => Ok(seq(|s|, i requires 0 <= i < |s| => JStr([s[i]])))
    case _ => Raise(TypeError)
  }

  /** `len(j)`. */
  function Len(j: Json): (r: Py<nat>)
    ensures r.Ok? <==> (j.JStr? || j.JArr? || j.JObj?)
    ensures j.JStr? ==> r == Ok(|j.s|)
  {
    match j
    case JStr(s) => Ok(|s|)
    case JArr(items) => Ok(|items|)
    case JObj(fields) => Ok(|fields|)
    case _ => Raise(TypeError)
  }

  /** `j.strip()`: only strings have `strip`. */
  function StripJ(j: Json): (r: Py<string>)
    ensures r.Ok? <==> j.JStr?
    ensures r.Ok? ==> r.value == Strip(j.s)
    ensures r.Raise? ==> r.exc == AttributeError
  {
    if j.JStr? then Ok(Strip(j.s)) else Raise(AttributeError)
  }

  // ---------------------------------------------------------------------
  // Strings

  /** The characters for which Python's `str.isspace` holds. */
  predicate IsSpace(c: char) {
    c == ' ' || c == '\t' || c == '\n' || c == '\r' || c == '\U{000B}' || c == '\U{000C}'
    || ('\U{001C}' <= c <= '\U{001F}') || c == '\U{0085}' || c == '\U{00A0}' || c == '\U{1680}'
    || ('\U{2000}' <= c <= '\U{200A}') || c == '\U{2028}' || c == '\U{2029}' || c == '\U{202F}'
    || c == '\U{205F}' || c == '\U{3000}'
  }

  function StripLeft(s: string): string {
    if |s| > 0 && IsSpace(s[0]) then StripLeft(s[1..]) else s
  }

  function StripRight(s: string): string {
    if |s| > 0 && IsSpace(s[|s| - 1]) then StripRight(s[..|s| - 1]) else s
  }

  /** `s.strip()`. */
  function Strip(s: string): string {
    StripRight(StripLeft(s))
  }

  lemma {:induction false} StripLeftIsSuffix(s: string)
    ensures var r := StripLeft(s);
      |r| <= |s| && r == s[|s| - |r|..] && (r == [] || !IsSpace(r[0]))
      && forall i :: 0 <= i < |s| - |r| ==> IsSpace(s[i])
    decreases |s|
  {
    if |s| > 0 && IsSpace(s[0]) {
      StripLeftIsSuffix(s[1..]);
    }
  }

  lemma {:induction false} StripRightIsPrefix(s: string)
    ensures var r := StripRight(s);
      |r| <= |s| && r == s[..|r|] && (r == [] || !IsSpace(r[|r| - 1]))
      && forall i :: |r| <= i < |s| ==> IsSpace(s[i])
    decreases |s|
  {
    if |s| > 0 && IsSpace(s[|s| - 1]) {
      StripRightIsPrefix(s[..|s| - 1]);
    }
  }

  /** The strip is what is left after removing leading and trailing
      whitespace: a slice of `s` that neither starts nor ends with it, and
      everything cut off on either side is whitespace. */
  lemma StripIsSlice(s: string)
    ensures var r := Strip(s);
      |r| <= |s| && (r == [] || (!IsSpace(r[0]) && !IsSpace(r[|r| - 1])))
      && exists lo :: OccursAt(s, r, lo)
           && (forall i :: 0 <= i < lo ==> IsSpace(s[i]))
           && (forall i :: lo + |r| <= i < |s| ==> IsSpace(s[i]))
  {
    var l := StripLeft(s);
    StripLeftIsSuffix(s);
    StripRightIsPrefix(l);
    var lo := |s| - |l|;
    assert OccursAt(s, Strip(s), lo);
    forall i | lo + |Strip(s)| <= i < |s| ensures IsSpace(s[i]) {
      assert s[i] == l[i - lo];
    }
  }

  /** A string with no whitespace at either end is its own strip. */
  lemma {:induction false} StripOfStripped(s: string)
    requires s == [] || (!IsSpace(s[0]) && !IsSpace(s[|s| - 1]))
    ensures Strip(s) == s
  {
    assert StripLeft(s) == s;
    assert StripRight(s) == s;
  }

  /** Stripping twice is stripping once. */
  lemma StripIdempotent(s: string)
    ensures Strip(Strip(s)) == Strip(s)
  {
    StripIsSlice(s);
    StripOfStripped(Strip(s));
  }

  predicate StartsWith(s: string, prefix: string) {
    |prefix| <= |s| && s[..|prefix|] == prefix
  }

  /** `pat` occurs in `s` starting at index `i`. */
  predicate OccursAt(s: string, pat: string, i: int) {
    0 <= i && i + |pat| <= |s| && s[i..i + |pat|] == pat
  }

  /** `s.find(pat, from)`: the first occurrence of `pat` at or after `from`. */
  function IndexOf(s: string, pat: string, from: nat): (r: Option<nat>)
    ensures r.Some? ==> from <= r.value && OccursAt(s, pat, r.value)
    decreases |s| - from
  {
    if from + |pat| > |s| then None
    else if s[from..from + |pat|] == pat then Some(from)
    else IndexOf(s, pat, from + 1)
  }

  /** The occurrence found is the first one, and none is missed. */
  lemma {:induction false} IndexOfIsFirst(s: string, pat: string, from: nat)
    ensures IndexOf(s, pat, from).Some? ==>
      forall i :: from <= i < IndexOf(s, pat, from).value ==> !OccursAt(s, pat, i)
    ensures IndexOf(s, pat, from).None? ==> forall i :: from <= i ==> !OccursAt(s, pat, i)
    decreases |s| - from
  {
    if from + |pat| <= |s| && s[from..from + |pat|] != pat {
      IndexOfIsFirst(s, pat, from + 1);
    }
  }

  // ---------------------------------------------------------------------
  // Rendering values as Python's `str()` does in an f-string

  function DigitChar(d: nat): char
    requires d < 10
  {
    "0123456789"[d]
  }

  /** Decimal digits of `n`, as `str(n)` prints a non-negative int. */
  function NatToString(n: nat): (r: string)
    ensures |r| >= 1
    ensures forall i :: 0 <= i < |r| ==> '0' <= r[i] <= '9'
    ensures r[0] == '0' ==> n == 0
  {
    if n < 10 then [DigitChar(n)] else NatToString(n / 10) + [DigitChar(n % 10)]
  }

  function IntToString(n: int): string {
    if n < 0 then "-" + NatToString(-n) else NatToString(n)
  }

  /** `repr(j)`.  Nested strings are quoted with single quotes; Python's
      escaping of quotes and control characters inside them is not modelled. */
  function Repr(j: Json): string
    decreases j, 1
  {
    match j
    case JNull => "None"
    case JBool(b) => if b then "True" else "False"
    case JInt(n) => IntToString(n)
    case JStr(s) => "'" + s + "'"
    case JArr(items) => "[" + ReprItems(j, items) + "]"
    case JObj(fields) => "{" + ReprFields(j, fields) + "}"
  }

  function ReprItems(ghost parent: Json, items: seq<Json>): string
    requires forall x :: x in items ==> x < parent
    decreases parent, 0, |items|
  {
    if |items| == 0 then ""
    else
      assert items[0] in items;
      if |items| == 1 then Repr(items[0])
      else
        assert forall x :: x in items[1..] ==> x in items;
        Repr(items[0]) + ", " + ReprItems(parent, items[1..])
  }

  function ReprFields(ghost parent: Json, fields: seq<(string, Json)>): string
    requires forall p :: p in fields ==> p.1 < parent
    decreases parent, 0, |fields|
  {
    if |fields| == 0 then ""
    else
      assert fields[0] in fields;
      assert forall p :: p in fields[1..] ==> p in fields;
      var head := "'" + fields[0].0 + "': " + Repr(fields[0].1);
      if |fields| == 1 then head else head + ", " + ReprFields(parent, fields[1..])
  }

  /** `str(j)`, which is what `f"{j}"` inserts: a string is inserted as it is,
      anything else as its `repr`. */
  function PyStr(j: Json): (r: string)
    ensures j.JStr? ==> r == j.s
  {
    if j.JStr? then j.s else Repr(j)
  }
}
