/**
 * The JSON values that flow through the worker (workflow graphs, engine
 * messages, manifests), with the parts of Python's behaviour on them that
 * the worker relies on: truthiness, `str()` and `repr()`, and `in`.
 */
module Json {
  import opened Wrappers
  import opened Dict

  /** The text Python prints for a float (`6.0`, `1e-05`, `inf`, `nan`). */
  type FloatText = s: string | forall i | 0 <= i < |s| :: s[i] in "0123456789.+-einfa"
    witness "0.0"

  datatype Json =
    | JNull
    | JBool(b: bool)
    | JInt(i: int)
    | JFloat(text: FloatText)
    | JStr(s: string)
    | JList(items: seq<Json>)
    | JObj(fields: Dict<Json>)

  type Obj = Dict<Json>

  /** `dict.get(k, default)` */
  function GetOr(d: Obj, k: string, default: Json): Json
  {
    match Get(d, k)
    case Some(v) => v
    case None => default
  }

  /** Python truthiness (`if x:`). */
  predicate Truthy(v: Json)
  {
    match v
    case JNull => false
    case JBool(b) => b
    case JInt(i) => i != 0
    case JFloat(t) => t != "0.0" && t != "-0.0"
    case JStr(s) => s != ""
    case JList(items) => items != []
    case JObj(fields) => fields != []
  }

  /** The name Python gives the value's type in error messages. */
  function TypeName(v: Json): string
  {
    match v
    case JNull => "NoneType"
    case JBool(_) => "bool"
    case JInt(_) => "int"
    case JFloat(_) => "float"
    case JStr(_) => "str"
    case JList(_) => "list"
    case JObj(_) => "dict"
  }

  /** The AttributeError raised by calling `.get` on a value that is not a dict. */
  function NoGet(v: Json): string
  {
    "'" + TypeName(v) + "' object has no attribute 'get'"
  }

  /** A list of strings as a JSON list. */
  function Strs(ss: seq<string>): Json
  {
    JList(seq(|ss|, i requires 0 <= i < |ss| => JStr(ss[i])))
  }

  function DigitChar(d: nat): (c: char)
    requires d < 10
    ensures c in "0123456789"
  {
    "0123456789"[d]
  }

  /** `str(n)` for a natural number: decimal digits without leading zeros. */
  function NatToString(n: nat): (s: string)
    ensures |s| > 0 && s[|s| - 1] in "0123456789"
    ensures forall i | 0 <= i < |s| :: s[i] in "0123456789"
  {
    if n < 10 then [DigitChar(n)] else NatToString(n / 10) + [DigitChar(n % 10)]
  }

  /** `str(i)` for an integer. */
  function IntToString(i: int): (s: string)
    ensures forall j | 0 <= j < |s| :: s[j] in "-0123456789"
  {
    if i < 0 then "-" + NatToString(-i) else NatToString(i)
  }

  function HexDigit(d: nat): char
    requires d < 16
  {
    "0123456789abcdef"[d]
  }

  /** Python's escape of one character inside a string literal quoted with `quote`. */
  function EscapeChar(c: char, quote: char): string
  {
    if c == quote || c == '\\' then ['\\', c]
    else if c == '\t' then "\\t"
    else if c == '\n' then "\\n"
    else if c == '\r' then "\\r"
    else if (c as int) < 0x20 || (0x7f <= (c as int) <= 0xa0) || (c as int) == 0xad then
      ['\\', 'x', HexDigit((c as int) / 16), HexDigit((c as int) % 16)]
    else [c]
  }

  function EscapeFrom(s: string, quote: char, i: nat): string
    requires i <= |s|
    decreases |s| - i
  {
    if i == |s| then "" else EscapeChar(s[i], quote) + EscapeFrom(s, quote, i + 1)
  }

  /** `repr(s)` for a string: single quotes unless the text holds `'` and no `"`. */
  function StrRepr(s: string): string
  {
    var quote := if '\'' in s && '"' !in s then '"' else '\'';
    [quote] + EscapeFrom(s, quote, 0) + [quote]
  }

  /** `repr(v)`; for every type but `str` this is also `str(v)`. */
  function PyRepr(v: Json): (r: string)
    ensures v.JList? ==> |r| > 0 && r[|r| - 1] == ']'
    ensures v.JObj? ==> |r| > 0 && r[|r| - 1] == '}'
    ensures !v.JList? && !v.JObj? && !v.JStr? ==> '_' !in r
    decreases v, 1
  {
    match v
    case JNull => "None"
    case JBool(b) => if b then "True" else "False"
    case JInt(i) => IntToString(i)
    case JFloat(t) => t
    case JStr(s) => StrRepr(s)
    case JList(_) => "[" + ReprItems(v, 0) + "]"
    case JObj(_) => "{" + ReprFields(v, 0) + "}"
  }

  /** The `, `-joined reprs of the list's items from position `i` on. */
  function ReprItems(v: Json, i: nat): string
    requires v.JList? && i <= |v.items|
    decreases v, 0, |v.items| - i
  {
    if i == |v.items| then ""
    else (if i == 0 then "" else ", ") + PyRepr(v.items[i]) + ReprItems(v, i + 1)
  }

  /** The `, `-joined `key: value` reprs of the dict's entries from position `i` on. */
  function ReprFields(v: Json, i: nat): string
    requires v.JObj? && i <= |v.fields|
    decreases v, 0, |v.fields| - i
  {
    if i == |v.fields| then ""
    else
      assert v.fields[i] in v.fields;
      (if i == 0 then "" else ", ") + StrRepr(v.fields[i].0) + ": " + PyRepr(v.fields[i].1)
        + ReprFields(v, i + 1)
  }

  /** `str(v)`, as an f-string interpolation renders it. */
  function PyStr(v: Json): string
  {
    if v.JStr? then v.s else PyRepr(v)
  }

  /** `s.startswith(prefix)` */
  predicate StartsWith(s: string, prefix: string)
  {
    prefix <= s
  }

  /** `needle in s` for strings. */
  predicate IsSubstring(needle: string, s: string)
  {
    exists i | 0 <= i <= |s| :: StartsWith(s[i..], needle)
  }

  /**
   * `key in container` for a string key: a key of a dict, an item of a
   * list, a substring of a str; any other type raises TypeError (`None`).
   */
  function Contains(container: Json, key: string): Option<bool>
  {
    match container
    case JObj(fields) => Some(key in Keys(fields))
    case JList(items) => Some(JStr(key) in items)
    case JStr(s) => Some(IsSubstring(key, s))
    case _ => None
  }

  /** The position of the first `,` of `s`. */
  function FirstComma(s: string): (i: nat)
    requires ',' in s
    ensures i < |s| && s[i] == ',' && ',' !in s[..i]
  {
    if s[0] == ',' then 0
    else
      var k := FirstComma(s[1..]);
      assert s[..k + 1] == [s[0]] + s[1..][..k];
      k + 1
  }

  /** `s.split(',', 1)[1]`: what follows the first comma. */
  function AfterFirstComma(s: string): string
    requires ',' in s
  {
    s[FirstComma(s) + 1..]
  }

  /** Splitting at the first comma recovers the part after a comma-free header, commas and all. */
  lemma {:induction false} AfterFirstCommaSplit(header: string, payload: string)
    requires ',' !in header
    ensures ',' in header + "," + payload
    ensures AfterFirstComma(header + "," + payload) == payload
  {
    var s := header + "," + payload;
    assert s[|header|] == ',';
    var i := FirstComma(s);
  }
}
