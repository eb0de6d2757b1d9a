// JSON-like values: the Python dicts, lists and scalars that travel between agents.
module Json {
  import opened Wrappers
  import opened Strings

  /** A Python JSON value; an object keeps its keys in insertion order, as a dict does. */
  datatype Json =
    | Null
    | Bool(b: bool)
    | Int(i: int)
    | Str(s: string)
    | Arr(items: seq<Json>)
    | Obj(fields: seq<(string, Json)>)

  /** The keys of an object, in order. */
  function Keys(j: Json): seq<string> {
    if j.Obj? then seq(|j.fields|, i requires 0 <= i < |j.fields| => j.fields[i].0) else []
  }

  /** The position of the first field named `key`. */
  function Find(fields: seq<(string, Json)>, key: string): (r: Option<nat>)
    ensures r.Some? ==> r.value < |fields| && fields[r.value].0 == key
    ensures r.Some? ==> forall k :: 0 <= k < r.value ==> fields[k].0 != key
    ensures r.None? ==> forall k :: 0 <= k < |fields| ==> fields[k].0 != key
    decreases |fields|
  {
    if |fields| == 0 then None
    else if fields[0].0 == key then Some(0)
    else match Find(fields[1..], key)
      case Some(i) => Some(i + 1)
      case None => None
  }

  /** `d.get(key)`: the value bound to `key`, None for a missing key or a non-object. */
  function Get(j: Json, key: string): (r: Option<Json>)
  {
    if !j.Obj? then None
    else
      match Find(j.fields, key)
      case Some(i) => Some(j.fields[i].1)
      case None => None
  }

  /** The first field named `key` is the one `get` reads. */
  lemma GetAt(j: Json, key: string, i: nat)
    requires j.Obj? && i < |j.fields| && j.fields[i].0 == key
    requires forall k :: 0 <= k < i ==> j.fields[k].0 != key
    ensures Get(j, key) == Some(j.fields[i].1)
  {
    var f := Find(j.fields, key);
    assert f.Some?;
    assert f.value == i;
  }

  /** A key the object does not have reads as None. */
  lemma GetNone(j: Json, key: string)
    requires j.Obj? && key !in Keys(j)
    ensures Get(j, key).None?
  {
    assert forall i :: 0 <= i < |j.fields| ==> Keys(j)[i] == j.fields[i].0;
  }

  /** `d.get(key, default)`. */
  function GetOr(j: Json, key: string, default: Json): Json {
    Get(j, key).GetOr(default)
  }

  /** Python truthiness: None, False, 0, "", [] and {} are false. */
  predicate Truthy(j: Json) {
    match j
    case Null => false
    case Bool(b) => b
    case Int(i) => i != 0
    case Str(s) => s != ""
    case Arr(items) => items != []
    case Obj(fields) => fields != []
  }

  /** `a or b` on two values. */
  function Or(a: Json, b: Json): Json {
    if Truthy(a) then a else b
  }

  /** A JSON string literal as json.dumps writes it with ensure_ascii. */
  function Quote(s: string): string {
    "\"" + Escape(s) + "\""
  }

  function Escape(s: string): string
    decreases |s|
  {
    if |s| == 0 then "" else EscapeChar(s[0]) + Escape(s[1..])
  }

  function EscapeChar(c: char): string {
    if c == '"' then "\\\""
    else if c == '\\' then "\\\\"
    else if c == '\n' then "\\n"
    else if c == '\r' then "\\r"
    else if c == '\t' then "\\t"
    else if c == '\U{0008}' then "\\b"
    else if c == '\U{000C}' then "\\f"
    else if c as int < 0x20 || (0x7f <= c as int < 0x10000) then "\\u" + Hex4(c as int)
    else if c as int >= 0x10000 then
      var v := c as int - 0x10000;
      "\\u" + Hex4(0xD800 + v / 0x400) + "\\u" + Hex4(0xDC00 + v % 0x400)
    else [c]
  }

  /** json.dumps(j) with the default separators ", " and ": ". */
  function Dumps(j: Json): string
    decreases j
  {
    match j
    case Null => "null"
    case Bool(b) => if b then "true" else "false"
    case Int(i) => IntToString(i)
    case Str(s) => Quote(s)
    case Arr(items) =>
      "[" + Join(", ", seq(|items|, k requires 0 <= k < |items| => Dumps(items[k]))) + "]"
    case Obj(fields) =>
      "{" + Join(", ", seq(|fields|, k requires 0 <= k < |fields| =>
        Quote(fields[k].0) + ": " + Dumps(fields[k].1))) + "}"
  }

  /** `n` levels of two-space indentation. */
  function Indent(n: nat): string {
    seq(2 * n, _ => ' ')
  }

  /** json.dumps(j, indent=2), the value standing at nesting depth `level`. */
  function DumpsIndented(j: Json, level: nat): string
    decreases j
  {
    match j
    case Arr(items) =>
      if |items| == 0 then "[]"
      else
        "[\n" + Join(",\n", seq(|items|, k requires 0 <= k < |items| =>
          Indent(level + 1) + DumpsIndented(items[k], level + 1)))
        + "\n" + Indent(level) + "]"
    case Obj(fields) =>
      if |fields| == 0 then "{}"
      else
        "{\n" + Join(",\n", seq(|fields|, k requires 0 <= k < |fields| =>
          Indent(level + 1) + Quote(fields[k].0) + ": " + DumpsIndented(fields[k].1, level + 1)))
        + "\n" + Indent(level) + "}"
    case _ => Dumps(j)
  }

  /** repr() of a string: single quotes unless the text holds a single quote and no double quote. */
  function ReprString(s: string): string {
    var q := if '\'' in s && '"' !in s then '"' else '\'';
    [q] + ReprEscape(s, q) + [q]
  }

  /** Characters repr() writes as an escape because str.isprintable rejects them: the C0 and C1
      controls and DEL, the soft hyphen, and every space separator other than ' ' together with the
      line and paragraph separators. */
  predicate ReprHidden(c: char) {
    c as int < 0x20 || (0x7f <= c as int <= 0xa0) || c as int == 0xad || (IsSpace(c) && c != ' ')
  }

  function ReprEscape(s: string, q: char): string
    decreases |s|
  {
    if |s| == 0 then ""
    else
      var c := s[0];
      var e :=
        if c == '\\' then "\\\\"
        else if c == q then ['\\', q]
        else if c == '\n' then "\\n"
        else if c == '\r' then "\\r"
        else if c == '\t' then "\\t"
        else if ReprHidden(c) then
          if c as int < 0x100 then "\\x" + Hex4(c as int)[2..] else "\\u" + Hex4(c as int)
        else [c];
      e + ReprEscape(s[1..], q)
  }

  /** str(j) of the Python value, the text a dict shows when it is formatted. */
  function Repr(j: Json): string
    decreases j
  {
    match j
    case Null => "None"
    case Bool(b) => if b then "True" else "False"
    case Int(i) => IntToString(i)
    case Str(s) => ReprString(s)
    case Arr(items) =>
      "[" + Join(", ", seq(|items|, k requires 0 <= k < |items| => Repr(items[k]))) + "]"
    case Obj(fields) =>
      "{" + Join(", ", seq(|fields|, k requires 0 <= k < |fields| =>
        ReprString(fields[k].0) + ": " + Repr(fields[k].1))) + "}"
  }

  /** str(v) of a value: the text itself for a string, its repr otherwise. */
  function ToStr(j: Json): string {
    if j.Str? then j.s else Repr(j)
  }
}
