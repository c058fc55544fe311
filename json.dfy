/** The part of Go's encoding/json that the dispatcher relies on:
    `json.NewEncoder(w).Encode(v)` marshals `v` completely, fails without
    writing anything when `v` holds a value that has no JSON form, and
    otherwise writes the JSON text followed by a newline. The encoder made
    by NewEncoder escapes HTML-sensitive characters. */
module Json {
  import opened Wrappers

  /** A payload a handler can return (Go's `interface{}`), restricted to
      the shapes JSON has, plus one case for everything it has not. */
  datatype Value =
    | Null
    | Bool(b: bool)
    | Number(n: int)
    | Str(s: string)
    | Array(items: seq<Value>)
    | Object(fields: seq<Field>)   // a struct's exported fields in declaration order
    | Unsupported                  // a channel, a function, a complex number, NaN or an infinity

  datatype Field = Field(name: string, value: Value)

  /** No part of `v` lacks a JSON form. */
  predicate Encodable(v: Value) {
    match v
    case Unsupported => false
    case Array(items) => forall i :: 0 <= i < |items| ==> Encodable(items[i])
    case Object(fields) => forall i :: 0 <= i < |fields| ==> Encodable(fields[i].value)
    case _ => true
  }

  function HexDigit(d: nat): char
    requires d < 16
  {
    "0123456789abcdef"[d]
  }

  /** A character written as it is inside a JSON string. */
  predicate Plain(c: char) {
    ' ' <= c && c != '"' && c != '\\' && c != '<' && c != '>' && c != '&'
    && c != '\U{2028}' && c != '\U{2029}'
  }

  /** How one character of a Go string is written inside a JSON string. */
  function EscapeChar(c: char): (r: string)
    ensures Plain(c) <==> r == [c]
  {
    if c == '"' || c == '\\' then ['\\', c]
    else if c as int == 8 then "\\b"
    else if c as int == 12 then "\\f"
    else if c == '\n' then "\\n"
    else if c == '\r' then "\\r"
    else if c == '\t' then "\\t"
    else if c < ' ' || c == '<' || c == '>' || c == '&' then
      "\\u00" + [HexDigit(c as int / 16), HexDigit(c as int % 16)]
    else if c == '\U{2028}' || c == '\U{2029}' then
      "\\u202" + [HexDigit(c as int % 16)]
    else [c]
  }

  function Escape(s: string): string {
    if s == [] then [] else EscapeChar(s[0]) + Escape(s[1..])
  }

  function Quote(s: string): string {
    "\"" + Escape(s) + "\""
  }

  function NatText(n: nat): (r: string)
    ensures |r| > 0
  {
    if n < 10 then ["0123456789"[n]] else NatText(n / 10) + ["0123456789"[n % 10]]
  }

  function IntText(n: int): string {
    if n < 0 then "-" + NatText(-n) else NatText(n)
  }

  /** The JSON text of `v`, or None when some part of it has no JSON form. */
  function Marshal(v: Value): Option<string>
    decreases v, 1
  {
    match v
    case Null => Some("null")
    case Bool(b) => Some(if b then "true" else "false")
    case Number(n) => Some(IntText(n))
    case Str(s) => Some(Quote(s))
    case Array(items) =>
      (match MarshalItems(items)
       case Some(t) => Some("[" + t + "]")
       case None => None)
    case Object(fields) =>
      (match MarshalFields(fields)
       case Some(t) => Some("{" + t + "}")
       case None => None)
    case Unsupported => None
  }

  /** The elements of an array, separated by commas. */
  function MarshalItems(items: seq<Value>): Option<string>
    decreases items, 0
  {
    if items == [] then Some("")
    else
      match (Marshal(items[0]), MarshalItems(items[1..]))
      case (Some(h), Some(t)) => Some(h + (if |items| == 1 then "" else "," + t))
      case _ => None
  }

  /** The members of an object, `"name":value`, separated by commas. */
  function MarshalFields(fields: seq<Field>): Option<string>
    decreases fields, 0
  {
    if fields == [] then Some("")
    else
      match (Marshal(fields[0].value), MarshalFields(fields[1..]))
      case (Some(h), Some(t)) =>
        Some(Quote(fields[0].name) + ":" + h + (if |fields| == 1 then "" else "," + t))
      case _ => None
  }

  /** What `Encoder.Encode` writes for `v`: its JSON text and a newline, or
      None (an error, and nothing written). */
  function Encode(v: Value): (r: Option<string>)
    ensures r.Some? <==> Encodable(v)
    ensures r.Some? ==> |r.value| > 1 && r.value[|r.value| - 1] == '\n'
  {
    MarshalSucceedsIffEncodable(v);
    match Marshal(v)
    case Some(t) => Some(t + "\n")
    case None => None
  }

  lemma {:induction false} MarshalSucceedsIffEncodable(v: Value)
    ensures Marshal(v).Some? <==> Encodable(v)
    ensures Marshal(v).Some? ==> |Marshal(v).value| > 0
    decreases v, 1
  {
    match v
    case Array(items) => ItemsSucceedIffEncodable(items);
    case Object(fields) => FieldsSucceedIffEncodable(fields);
    case _ =>
  }

  lemma {:induction false} ItemsSucceedIffEncodable(items: seq<Value>)
    ensures MarshalItems(items).Some? <==> forall i :: 0 <= i < |items| ==> Encodable(items[i])
    decreases items, 0
  {
    if items != [] {
      MarshalSucceedsIffEncodable(items[0]);
      ItemsSucceedIffEncodable(items[1..]);
      assert forall i :: 1 <= i < |items| ==> items[i] == items[1..][i - 1];
    }
  }

  lemma {:induction false} FieldsSucceedIffEncodable(fields: seq<Field>)
    ensures MarshalFields(fields).Some? <==> forall i :: 0 <= i < |fields| ==> Encodable(fields[i].value)
    decreases fields, 0
  {
    if fields != [] {
      MarshalSucceedsIffEncodable(fields[0].value);
      FieldsSucceedIffEncodable(fields[1..]);
      assert forall i :: 1 <= i < |fields| ==> fields[i] == fields[1..][i - 1];
    }
  }

  /** A string made of plain characters is written between quotes unchanged. */
  lemma {:induction false} EscapeKeepsPlain(s: string)
    ensures (forall i :: 0 <= i < |s| ==> Plain(s[i])) <==> Escape(s) == s
  {
    if s != [] {
      EscapeKeepsPlain(s[1..]);
      assert forall i :: 1 <= i < |s| ==> s[i] == s[1..][i - 1];
      EscapeLength(s[1..]);
      if Escape(s) == s {
        assert |EscapeChar(s[0])| == 1;
        assert Escape(s[1..]) == s[1..];
      }
    }
  }

  lemma {:induction false} EscapeLength(s: string)
    ensures |Escape(s)| >= |s|
  {
    if s != [] { EscapeLength(s[1..]); }
  }
}
