/** The value that `json.loads` produces, and the few Python operations the
    response check and the reports apply to it: `key in value`,
    `value[key]`, `isinstance(value, (int, float))` and `str(value)`. */
module JsonModel {
  import opened PyText

  /** A parsed JSON document as Python holds it. A JSON number without
      fraction or exponent becomes an `int`; any other becomes a `float`,
      kept here as its exact value together with the text Python's `str()`
      gives for it. An object keeps its members in document order; `json.loads`
      builds a `dict`, so its keys are taken to be distinct. */
  datatype Json =
    | JNull
    | JBool(b: bool)
    | JInt(i: int)
    | JFloat(value: real, repr: string)
    | JString(s: string)
    | JArray(items: seq<Json>)
    | JObject(members: seq<Member>)

  datatype Member = Member(key: string, value: Json)

  /** What `json.loads(text)` does: a value, or a `JSONDecodeError` whose
      `str()` is `message`. The decoder itself is not modelled. */
  datatype Decoded = Parsed(value: Json) | DecodeError(message: string)

  /** The exceptions the checks can raise. */
  datatype PyException = TypeError(message: string) | KeyError(key: string)

  /** `str(e)`: a `KeyError` shows the `repr()` of its key. */
  function ExceptionText(e: PyException): string {
    match e
    case TypeError(m) => m
    case KeyError(k) => StrRepr(k)
  }

  /** A Python expression that yields a value or raises. */
  datatype PyOutcome<T> = Ok(value: T) | Raised(exception: PyException)

  /** `type(value).__name__`. */
  function TypeName(j: Json): string {
    match j
    case JNull => "NoneType"
    case JBool(_) => "bool"
    case JInt(_) => "int"
    case JFloat(_, _) => "float"
    case JString(_) => "str"
    case JArray(_) => "list"
    case JObject(_) => "dict"
  }

  /** `key in members` for a dict. */
  predicate HasKey(members: seq<Member>, key: string) {
    exists i | 0 <= i < |members| :: members[i].key == key
  }

  /** `d[key]` for a dict that has `key`: the value of its member. */
  function Lookup(members: seq<Member>, key: string): (v: Json)
    requires HasKey(members, key)
    ensures exists i | 0 <= i < |members| :: members[i].key == key && members[i].value == v
  {
    if members[0].key == key then members[0].value else Lookup(members[1..], key)
  }

  /** Python's `key in j` for a string `key`: membership of a dict's keys,
      equality with an element of a list, substring of a str; any other type
      raises `TypeError`. */
  function PyContains(j: Json, key: string): (r: PyOutcome<bool>)
    ensures j.JObject? ==> r == Ok(HasKey(j.members, key))
    ensures r.Raised? <==> !(j.JObject? || j.JArray? || j.JString?)
  {
    match j
    case JObject(ms) => Ok(HasKey(ms, key))
    case JArray(items) => Ok(JString(key) in items)
    case JString(s) => Ok(IsSubstring(key, s))
    case _ => Raised(TypeError("argument of type '" + TypeName(j) + "' is not iterable"))
  }

  /** Python's `j[key]` for a string `key`. Only a dict that has `key`
      yields a value; a dict without it raises `KeyError`; a list or str
      raises `TypeError`, as does any other type. Messages are CPython
      3.11's. */
  function PyGetItem(j: Json, key: string): (r: PyOutcome<Json>)
    ensures r.Ok? <==> j.JObject? && HasKey(j.members, key)
    ensures r.Ok? ==> r.value == Lookup(j.members, key)
  {
    match j
    case JObject(ms) => if HasKey(ms, key) then Ok(Lookup(ms, key)) else Raised(KeyError(key))
    case JArray(_) => Raised(TypeError("list indices must be integers or slices, not str"))
    case JString(_) => Raised(TypeError("string indices must be integers, not 'str'"))
    case _ => Raised(TypeError("'" + TypeName(j) + "' object is not subscriptable"))
  }

  /** `isinstance(j, (int, float))`: `bool` is a subclass of `int`, so a
      JSON `true` or `false` counts as a number. */
  predicate IsPyNumber(j: Json) {
    j.JInt? || j.JFloat? || j.JBool?
  }

  /** The number Python compares: `True == 1`, `False == 0`. */
  function NumericValue(j: Json): (v: real)
    requires IsPyNumber(j)
    ensures j.JBool? ==> v == (if j.b then 1.0 else 0.0)
    ensures j.JInt? ==> v == j.i as real
  {
    match j
    case JInt(i) => i as real
    case JFloat(v, _) => v
    case JBool(b) => if b then 1.0 else 0.0
  }

  /** `str(j)`, which is also what an f-string substitutes for `{j}`: a str
      as it is, anything else as its `repr()`. */
  function Display(j: Json): (r: string)
    ensures j.JString? ==> r == j.s
    ensures j.JInt? && j.i >= 0 ==> AllDigits(r) && DigitsValue(r) == j.i
    ensures j.JBool? ==> r == (if j.b then "True" else "False")
  {
    if j.JString? then j.s
    else
      if j.JInt? && j.i >= 0 then NatToStringRoundTrip(j.i); Repr(j) else Repr(j)
  }

  /** `repr(j)`: lists as `[a, b]`, dicts as `{'k': v}`, `None`, `True`,
      `False`, integers in decimal, floats by their stored text. */
  function Repr(j: Json): string
    decreases j
  {
    match j
    case JNull => "None"
    case JBool(b) => if b then "True" else "False"
    case JInt(i) => IntToString(i)
    case JFloat(_, text) => text
    case JString(s) => StrRepr(s)
    case JArray(items) => "[" + ReprItems(items) + "]"
    case JObject(ms) => "{" + ReprMembers(ms) + "}"
  }

  function ReprItems(items: seq<Json>): string
    decreases items
  {
    if items == [] then ""
    else if |items| == 1 then Repr(items[0])
    else Repr(items[0]) + ", " + ReprItems(items[1..])
  }

  function ReprMembers(ms: seq<Member>): string
    decreases ms
  {
    if ms == [] then ""
    else
      var m := StrRepr(ms[0].key) + ": " + Repr(ms[0].value);
      if |ms| == 1 then m else m + ", " + ReprMembers(ms[1..])
  }

  /** `repr(s)`: single quotes, unless `s` holds a `'` and no `"`. */
  function StrRepr(s: string): (r: string)
    ensures |r| >= 2 && r[0] == r[|r| - 1] && (r[0] == '\'' || r[0] == '"')
  {
    var quote := if '\'' in s && '"' !in s then '"' else '\'';
    [quote] + Escaped(s, quote) + [quote]
  }

  function Escaped(s: string, quote: char): string {
    if s == [] then "" else EscapeChar(s[0], quote) + Escaped(s[1..], quote)
  }

  function HexDigit(d: nat): char
    requires d < 16
  {
    "0123456789abcdef"[d]
  }

  function Hex(n: nat, width: nat): (r: string)
    ensures |r| == width
  {
    if width == 0 then "" else Hex(n / 16, width - 1) + [HexDigit(n % 16)]
  }

  /** Characters above U+007E that `str.isprintable()` rejects, for the
      Latin-1 range, the Unicode separators, and the common format
      characters. */
  predicate IsNonPrintableAbove7E(c: char) {
    || '\U{7F}' <= c <= '\U{A0}' || c == '\U{AD}'
    || c == '\U{1680}' || '\U{2000}' <= c <= '\U{200F}'
    || '\U{2028}' <= c <= '\U{202F}' || '\U{205F}' <= c <= '\U{2064}'
    || c == '\U{3000}' || c == '\U{FEFF}'
  }

  /** How `repr` writes one character of a str. */
  function EscapeChar(c: char, quote: char): (r: string)
    ensures |r| >= 1
  {
    if c == quote || c == '\\' then ['\\', c]
    else if c == '\t' then "\\t"
    else if c == '\n' then "\\n"
    else if c == '\r' then "\\r"
    else if c < ' ' then "\\x" + Hex(c as int, 2)
    else if c < '\U{7F}' || !IsNonPrintableAbove7E(c) then [c]
    else if c <= '\U{FF}' then "\\x" + Hex(c as int, 2)
    else "\\u" + Hex(c as int, 4)
  }

  /** A string whose characters `repr` writes as they are comes back
      between quotes unchanged. */
  lemma {:induction false} PlainStrRepr(s: string)
    requires '\'' !in s && '\\' !in s
    requires forall i | 0 <= i < |s| :: ' ' <= s[i] < '\U{7F}'
    ensures StrRepr(s) == "'" + s + "'"
  {
    PlainEscaped(s);
  }

  lemma {:induction false} PlainEscaped(s: string)
    requires '\'' !in s && '\\' !in s
    requires forall i | 0 <= i < |s| :: ' ' <= s[i] < '\U{7F}'
    ensures Escaped(s, '\'') == s
  {
    if s != [] {
      PlainEscaped(s[1..]);
      assert s == [s[0]] + s[1..];
    }
  }
}
