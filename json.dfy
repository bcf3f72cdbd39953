// The JSON values the gateway sends as request bodies, Python's
// json.dumps on them (default separators ", " and ": ", ensure_ascii),
// and Python truthiness, which decides whether the optional-body signing
// profile includes the body.

module Json {
  import opened Common

  /** A float is carried as the text Python's repr gives it; its arithmetic is not modelled. */
  datatype Json =
    | JNull
    | JBool(b: bool)
    | JInt(i: int)
    | JFloat(repr: string)
    | JStr(s: string)
    | JArr(items: seq<Json>)
    | JObj(fields: seq<(string, Json)>)

  /** Python truthiness of the value: None, False, 0, 0.0, "", [] and {} are false. */
  predicate Truthy(j: Json)
  {
    match j
    case JNull => false
    case JBool(b) => b
    case JInt(i) => i != 0
    case JFloat(r) => r != "0.0" && r != "-0.0"
    case JStr(s) => s != ""
    case JArr(items) => items != []
    case JObj(fields) => fields != []
  }

  predicate Printable(s: string)
  {
    forall k :: 0 <= k < |s| ==> ' ' <= s[k] <= '~'
  }

  function IntToString(i: int): (s: string)
    ensures Printable(s)
  {
    if i < 0 then "-" + NatToString(-i) else NatToString(i)
  }

  function HexLower(d: nat): (c: char)
    requires d < 16
    ensures ' ' <= c <= '~'
  {
    "0123456789abcdef"[d]
  }

  /** "\\u" followed by four lower-case hex digits of a 16-bit unit. */
  function UnicodeEscape(u: nat): (s: string)
    requires u < 0x10000
    ensures |s| == 6 && Printable(s)
  {
    ['\\', 'u', HexLower(u / 4096), HexLower((u / 256) % 16), HexLower((u / 16) % 16), HexLower(u % 16)]
  }

  /** How ensure_ascii writes one character of a string. */
  function EscapeChar(c: char): (s: string)
    ensures Printable(s)
    ensures ' ' <= c <= '~' && c != '"' && c != '\\' ==> s == [c]
  {
    if c == '"' then "\\\""
    else if c == '\\' then "\\\\"
    else if c == '\n' then "\\n"
    else if c == '\r' then "\\r"
    else if c == '\t' then "\\t"
    else if c == 8 as char then "\\b"
    else if c == 12 as char then "\\f"
    else if ' ' <= c <= '~' then [c]
    else if (c as int) < 0x10000 then UnicodeEscape(c as int)
    else
      // outside the Basic Multilingual Plane: a UTF-16 surrogate pair
      var n := c as int - 0x10000;
      UnicodeEscape(0xD800 + n / 1024) + UnicodeEscape(0xDC00 + n % 1024)
  }

  function EscapeChars(s: string): (r: string)
    ensures Printable(r)
  {
    if s == [] then [] else EscapeChar(s[0]) + EscapeChars(s[1..])
  }

  /** A JSON string literal. */
  function EncodeString(s: string): (r: string)
    ensures Printable(r)
    ensures |r| >= 2 && r[0] == '"' && r[|r| - 1] == '"'
  {
    "\"" + EscapeChars(s) + "\""
  }

  /** Every float repr inside the value is printable ASCII (Python's always is). */
  predicate ReprsPrintable(j: Json)
  {
    match j
    case JFloat(r) => Printable(r)
    case JArr(items) => forall i :: 0 <= i < |items| ==> ReprsPrintable(items[i])
    case JObj(fields) => forall i :: 0 <= i < |fields| ==> ReprsPrintable(fields[i].1)
    case _ => true
  }

  /** json.dumps(j). */
  function Dumps(j: Json): string
  {
    match j
    case JNull => "null"
    case JBool(b) => if b then "true" else "false"
    case JInt(i) => IntToString(i)
    case JFloat(r) => r
    case JStr(s) => EncodeString(s)
    case JArr(items) =>
      "[" + Join(seq(|items|, i requires 0 <= i < |items| => Dumps(items[i])), ", ") + "]"
    case JObj(fields) =>
      "{" + Join(seq(|fields|, i requires 0 <= i < |fields| =>
                   EncodeString(fields[i].0) + ": " + Dumps(fields[i].1)), ", ") + "}"
  }

  lemma {:induction false} JoinPrintable(parts: seq<string>, sep: string)
    requires Printable(sep)
    requires forall i :: 0 <= i < |parts| ==> Printable(parts[i])
    ensures Printable(Join(parts, sep))
  {
    if |parts| > 1 {
      JoinPrintable(parts[1..], sep);
    }
  }

  /** With ensure_ascii every character of the output is printable ASCII. */
  lemma {:induction false} DumpsPrintable(j: Json)
    requires ReprsPrintable(j)
    ensures Printable(Dumps(j))
  {
    match j
    case JArr(items) =>
      var parts := seq(|items|, i requires 0 <= i < |items| => Dumps(items[i]));
      forall i | 0 <= i < |items| ensures Printable(parts[i]) {
        DumpsPrintable(items[i]);
      }
      JoinPrintable(parts, ", ");
      PrintableConcat("[", Join(parts, ", "));
      PrintableConcat("[" + Join(parts, ", "), "]");
    case JObj(fields) =>
      var parts := seq(|fields|, i requires 0 <= i < |fields| =>
                     EncodeString(fields[i].0) + ": " + Dumps(fields[i].1));
      forall i | 0 <= i < |fields| ensures Printable(parts[i]) {
        DumpsPrintable(fields[i].1);
        PrintableConcat(EncodeString(fields[i].0), ": ");
        PrintableConcat(EncodeString(fields[i].0) + ": ", Dumps(fields[i].1));
      }
      JoinPrintable(parts, ", ");
      PrintableConcat("{", Join(parts, ", "));
      PrintableConcat("{" + Join(parts, ", "), "}");
    case _ =>
  }

  lemma PrintableConcat(a: string, b: string)
    requires Printable(a) && Printable(b)
    ensures Printable(a + b)
  {
    assert forall k :: 0 <= k < |a + b| ==> (a + b)[k] == if k < |a| then a[k] else b[k - |a|];
  }

  /** A string without quotes, backslashes or non-printable characters is written verbatim between quotes. */
  lemma {:induction false} EncodePlainString(s: string)
    requires Printable(s) && '"' !in s && '\\' !in s
    ensures EncodeString(s) == "\"" + s + "\""
  {
    PlainCharsVerbatim(s);
  }

  lemma {:induction false} PlainCharsVerbatim(s: string)
    requires Printable(s) && '"' !in s && '\\' !in s
    ensures EscapeChars(s) == s
  {
    if s != [] {
      assert s[0] in s;
      assert forall c :: c in s[1..] ==> c in s;
      PlainCharsVerbatim(s[1..]);
      assert s == [s[0]] + s[1..];
    }
  }
}
