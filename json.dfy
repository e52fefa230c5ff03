/** Decoded JSON bodies as PHP holds them after `json_decode($text, true)`:
    objects become string-keyed arrays, lists become integer-keyed arrays. */
module Json {
  import opened Wrappers
  import opened Strings
  import opened PhpArray

  datatype Json =
    | Null
    | Bool(b: bool)
    | Int(i: int)
    | Str(s: string)
    | Arr(items: seq<Json>)                 // a PHP list (keys 0, 1, ...)
    | Obj(fields: seq<(string, Json)>)      // a PHP array with string keys

  /** The values PHP's `is_array` accepts. */
  type PhpArrayValue = j: Json | j.Arr? || j.Obj? witness Obj([])

  /** `$j[$key]` for a string key: only a string-keyed array has one. Reading a
      key of a list, a string or a scalar yields nothing, as inside `isset`
      and `empty`. */
  function Get(j: Json, key: string): (r: Option<Json>)
    ensures r.Some? ==> j.Obj? && key in Keys(j.fields)
  {
    if j.Obj? then Lookup(j.fields, key) else None
  }

  /** The parent class's `arrayItem($j, $key)`: the value, or null. */
  function Item(j: Json, key: string): Json {
    Get(j, key).GetOr(Null)
  }

  /** PHP's `empty()` of a value that may be missing. */
  predicate IsEmpty(v: Option<Json>) {
    match v
    case None => true
    case Some(j) =>
      match j
      case Null => true
      case Bool(b) => !b
      case Int(i) => i == 0
      case Str(s) => s == "" || s == "0"
      case Arr(items) => items == []
      case Obj(fields) => fields == []
  }

  /** PHP's string conversion, as `sprintf('%s', ...)` applies it. */
  function ToText(j: Json): string {
    match j
    case Null => ""
    case Bool(b) => if b then "1" else ""
    case Int(i) => Decimal(i)
    case Str(s) => s
    case Arr(_) => "Array"
    case Obj(_) => "Array"
  }

  function HexDigit(d: nat): char
    requires d < 16
  {
    "0123456789abcdef"[d]
  }

  /** One character of a string as `json_encode` with JSON_UNESCAPED_UNICODE
      writes it: quote, backslash and slash are escaped, control characters
      become short or `\u00XX` escapes, U+2028 and U+2029 stay escaped, every
      other character is written as is. */
  function EscapeChar(c: char): string {
    var n := c as int;
    if c == '"' then "\\\""
    else if c == '\\' then "\\\\"
    else if c == '/' then "\\/"
    else if n == 8 then "\\b"
    else if n == 12 then "\\f"
    else if c == '\n' then "\\n"
    else if c == '\r' then "\\r"
    else if c == '\t' then "\\t"
    else if n < 0x20 then "\\u00" + [HexDigit(n / 16), HexDigit(n % 16)]
    else if n == 0x2028 then "\\u2028"
    else if n == 0x2029 then "\\u2029"
    else [c]
  }

  function EscapeChars(s: string): string
    decreases |s|
  {
    if s == [] then "" else EscapeChar(s[0]) + EscapeChars(s[1..])
  }

  function EncodeString(s: string): string {
    "\"" + EscapeChars(s) + "\""
  }

  /** `json_encode($j, JSON_UNESCAPED_UNICODE)`, compact. An empty PHP array
      is written `[]` whether it came from `{}` or `[]`. */
  function Encode(j: Json): string
    decreases j
  {
    match j
    case Null => "null"
    case Bool(b) => if b then "true" else "false"
    case Int(i) => Decimal(i)
    case Str(s) => EncodeString(s)
    case Arr(items) =>
      "[" + Join(seq(|items|, k requires 0 <= k < |items| => Encode(items[k])), ",") + "]"
    case Obj(fields) =>
      if fields == [] then "[]"
      else "{" + Join(seq(|fields|, k requires 0 <= k < |fields| =>
                        EncodeString(fields[k].0) + ":" + Encode(fields[k].1)), ",") + "}"
  }

  /** Characters `json_encode` writes unchanged. */
  predicate Plain(c: char) {
    'a' <= c <= 'z' || 'A' <= c <= 'Z' || '0' <= c <= '9' || c == '-' || c == '_' || c == ' ' || c == '.'
  }

  /** A string of plain characters is written between quotes as it is. */
  lemma {:induction false} EncodePlainString(s: string)
    requires forall i :: 0 <= i < |s| ==> Plain(s[i])
    ensures EscapeChars(s) == s
    ensures Encode(Str(s)) == "\"" + s + "\""
    decreases |s|
  {
    if s != [] {
      EncodePlainString(s[1..]);
      assert s == [s[0]] + s[1..];
    }
  }

  lemma EncodeContentKey()
    ensures EncodeString("content") == "\"content\""
  {
    EncodePlainString("content");
  }

  lemma EncodeErrorValue()
    ensures Encode(Str("error")) == "\"error\""
  {
    EncodePlainString("error");
  }

  /** `json_encode(['content' => 'error'])` is `{"content":"error"}`. */
  lemma EncodeContentError()
    ensures Encode(Obj([("content", Str("error"))])) == "{\"content\":\"error\"}"
  {
    var error := Obj([("content", Str("error"))]);
    EncodeContentKey();
    EncodeErrorValue();
    var parts := seq(|error.fields|, k requires 0 <= k < |error.fields| =>
                       EncodeString(error.fields[k].0) + ":" + Encode(error.fields[k].1));
    assert |parts| == 1;
    assert parts[0] == "\"content\"" + ":" + "\"error\"";
    assert "\"content\"" + ":" + "\"error\"" == "\"content\":\"error\"";
    assert parts == ["\"content\":\"error\""];
    assert Join(parts, ",") == "\"content\":\"error\"";
    assert Encode(error) == "{" + Join(parts, ",") + "}";
    assert "{" + "\"content\":\"error\"" + "}" == "{\"content\":\"error\"}";
  }
}
