// urllib.parse.urlencode on a list of (key, value) pairs whose values have
// already been turned into strings: each part goes through quote_plus
// (letters, digits and "_.-~" stay, a space becomes "+", every other
// character becomes %XX escapes of its UTF-8 bytes), pairs are written
// key=value and joined with "&".

module UrlQuery {
  import opened Common

  predicate AlwaysSafe(c: char)
  {
    ('A' <= c <= 'Z') || ('a' <= c <= 'z') || ('0' <= c <= '9') || c == '_' || c == '.' || c == '-' || c == '~'
  }

  /** The UTF-8 encoding of one Unicode scalar value. */
  function Utf8(c: char): (bytes: seq<nat>)
    ensures 1 <= |bytes| <= 4
    ensures forall k :: 0 <= k < |bytes| ==> bytes[k] < 256
  {
    var cp := c as int;
    if cp < 0x80 then [cp]
    else if cp < 0x800 then [0xC0 + cp / 64, 0x80 + cp % 64]
    else if cp < 0x10000 then [0xE0 + cp / 4096, 0x80 + (cp / 64) % 64, 0x80 + cp % 64]
    else [0xF0 + cp / 262144, 0x80 + (cp / 4096) % 64, 0x80 + (cp / 64) % 64, 0x80 + cp % 64]
  }

  function HexUpper(d: nat): (c: char)
    requires d < 16
    ensures AlwaysSafe(c)
  {
    "0123456789ABCDEF"[d]
  }

  /** The characters quote_plus can produce: safe ones, "+" and "%". */
  predicate QuotedChar(c: char)
  {
    AlwaysSafe(c) || c == '+' || c == '%'
  }

  predicate Quoted(s: string)
  {
    forall k :: 0 <= k < |s| ==> QuotedChar(s[k])
  }

  function PercentBytes(bytes: seq<nat>): (s: string)
    requires forall k :: 0 <= k < |bytes| ==> bytes[k] < 256
    ensures Quoted(s)
    ensures |s| == 3 * |bytes|
  {
    if bytes == [] then []
    else ['%', HexUpper(bytes[0] / 16), HexUpper(bytes[0] % 16)] + PercentBytes(bytes[1..])
  }

  function QuoteChar(c: char): (s: string)
    ensures Quoted(s) && |s| >= 1
  {
    if AlwaysSafe(c) then [c]
    else if c == ' ' then "+"
    else PercentBytes(Utf8(c))
  }

  /** quote_plus(s). */
  function QuotePlus(s: string): (r: string)
    ensures Quoted(r)
  {
    if s == [] then [] else QuoteChar(s[0]) + QuotePlus(s[1..])
  }

  /** urlencode(params). */
  function Urlencode(params: seq<(string, string)>): string
  {
    Join(seq(|params|, i requires 0 <= i < |params| => QuotePlus(params[i].0) + "=" + QuotePlus(params[i].1)), "&")
  }

  /** Splits a query string at "&" and each piece at its "=" (the reading side of urlencode). */
  function ParseQuery(q: string): seq<(string, string)>
  {
    var pieces := Split(q, '&');
    seq(|pieces|, i requires 0 <= i < |pieces| =>
      var kv := Split(pieces[i], '=');
      (kv[0], if |kv| >= 2 then kv[1] else ""))
  }

  /** A string of safe characters is left as it is: instrument ids such as BTC-USD-181228 pass through. */
  lemma {:induction false} QuotePlusIdentity(s: string)
    requires forall k :: 0 <= k < |s| ==> AlwaysSafe(s[k])
    ensures QuotePlus(s) == s
  {
    if s != [] {
      QuotePlusIdentity(s[1..]);
      assert s == [s[0]] + s[1..];
    }
  }

  /** Quoting never lets a separator through. */
  lemma QuotedHasNoSeparator(s: string)
    requires Quoted(s)
    ensures '&' !in s && '=' !in s && '?' !in s
  {
    forall k | 0 <= k < |s| ensures s[k] != '&' && s[k] != '=' && s[k] != '?' {
      assert QuotedChar(s[k]);
    }
  }

  /** urlencode of a non-empty list is non-empty: it always holds at least one "=". */
  lemma {:induction false} UrlencodeNonEmpty(params: seq<(string, string)>)
    requires params != []
    ensures Urlencode(params) != []
  {
    var parts := seq(|params|, i requires 0 <= i < |params| => QuotePlus(params[i].0) + "=" + QuotePlus(params[i].1));
    assert |parts[0]| >= 1;
    JoinFirst(parts, "&");
  }

  lemma {:induction false} JoinFirst(parts: seq<string>, sep: string)
    requires parts != []
    ensures |Join(parts, sep)| >= |parts[0]|
  {
  }

  /** Reading back an encoded query gives the quoted pairs in order. */
  lemma {:induction false} ParseUrlencode(params: seq<(string, string)>)
    requires params != []
    ensures ParseQuery(Urlencode(params)) == seq(|params|, i requires 0 <= i < |params| => (QuotePlus(params[i].0), QuotePlus(params[i].1)))
  {
    var parts := seq(|params|, i requires 0 <= i < |params| => QuotePlus(params[i].0) + "=" + QuotePlus(params[i].1));
    forall i | 0 <= i < |parts| ensures '&' !in parts[i] {
      QuotedHasNoSeparator(QuotePlus(params[i].0));
      QuotedHasNoSeparator(QuotePlus(params[i].1));
    }
    SplitJoin(parts, '&');
    assert Split(Urlencode(params), '&') == parts;
    forall i | 0 <= i < |parts| ensures Split(parts[i], '=') == [QuotePlus(params[i].0), QuotePlus(params[i].1)] {
      var k, v := QuotePlus(params[i].0), QuotePlus(params[i].1);
      QuotedHasNoSeparator(k);
      QuotedHasNoSeparator(v);
      SplitAppendSep(k, v, '=');
      SplitNoSep(v, '=');
      assert parts[i] == k + ['='] + v;
    }
  }

  /** Pairs made only of safe characters come back exactly. */
  lemma SafeParamsRoundTrip(params: seq<(string, string)>)
    requires params != []
    requires forall i, k :: 0 <= i < |params| && 0 <= k < |params[i].0| ==> AlwaysSafe(params[i].0[k])
    requires forall i, k :: 0 <= i < |params| && 0 <= k < |params[i].1| ==> AlwaysSafe(params[i].1[k])
    ensures ParseQuery(Urlencode(params)) == params
  {
    ParseUrlencode(params);
    forall i | 0 <= i < |params| ensures QuotePlus(params[i].0) == params[i].0 && QuotePlus(params[i].1) == params[i].1 {
      QuotePlusIdentity(params[i].0);
      QuotePlusIdentity(params[i].1);
    }
  }
}
