// Request signing for the exchange's V3 REST API. The signed message is
// timestamp + httpMethod + path (+ "?" + query when there are query
// parameters) + body. Two profiles exist: `sign`, which always appends the
// JSON text of the body (so "null" when there is none), and `sign2`, used
// by the close-all and cancel-all queries, which appends it only when the
// body is truthy. The keyed digest itself (HMAC-SHA256, then base64) is
// kept symbolic: a signature is the term naming the secret and the message.

module Signer {
  import opened Common
  import opened Json
  import opened UrlQuery

  /** A REST request as addRequest receives it; no params is [], no data is JNull. */
  datatype Request = Request(httpMethod: string, path: string, params: seq<(string, string)>, data: Json)

  /** The body as the transport sees it after signing: JSON text, or the value left unencoded. */
  datatype Body = Text(text: string) | Unencoded(value: Json)

  datatype SignedRequest = SignedRequest(httpMethod: string, path: string, params: seq<(string, string)>,
                                         body: Body, headers: seq<(string, HeaderValue)>)

  datatype Credentials = Credentials(apiKey: string, apiSecret: string, passphrase: string)

  /** generateSignature(msg, secret): base64 of HMAC-SHA256, not interpreted here. */
  datatype Signature = Base64HmacSha256(secret: string, message: string)

  /** A header value: plain text, or the signature term. */
  datatype HeaderValue = Plain(text: string) | Sig(signature: Signature)

  /** request.path, plus "?" and the encoded params when there are any. */
  function PathWithQuery(path: string, params: seq<(string, string)>): string
  {
    if params == [] then path else path + "?" + Urlencode(params)
  }

  /** The message `sign` feeds to the digest. */
  function SignMessage(timestamp: string, req: Request): string
  {
    timestamp + req.httpMethod + PathWithQuery(req.path, req.params) + Dumps(req.data)
  }

  /** The message `sign2` feeds to the digest. */
  function Sign2Message(timestamp: string, req: Request): string
  {
    timestamp + req.httpMethod + PathWithQuery(req.path, req.params) + (if Truthy(req.data) then Dumps(req.data) else "")
  }

  function AuthHeaders(cred: Credentials, timestamp: string, msg: string): (h: seq<(string, HeaderValue)>)
    ensures |h| == 5
  {
    [("OK-ACCESS-KEY", Plain(cred.apiKey)),
     ("OK-ACCESS-SIGN", Sig(Base64HmacSha256(cred.apiSecret, msg))),
     ("OK-ACCESS-TIMESTAMP", Plain(timestamp)),
     ("OK-ACCESS-PASSPHRASE", Plain(cred.passphrase)),
     ("Content-Type", Plain("application/json"))]
  }

  /** OkexfRestApi.sign: the body is always replaced by its JSON text. */
  function Sign(cred: Credentials, timestamp: string, req: Request): (r: SignedRequest)
    ensures r.body == Text(Dumps(req.data))
    ensures |r.headers| == 5 && r.headers[1] == ("OK-ACCESS-SIGN", Sig(Base64HmacSha256(cred.apiSecret, SignMessage(timestamp, req))))
    ensures r.headers[2] == ("OK-ACCESS-TIMESTAMP", Plain(timestamp))
    ensures (r.httpMethod, r.path, r.params) == (req.httpMethod, req.path, req.params)
  {
    SignedRequest(req.httpMethod, req.path, req.params, Text(Dumps(req.data)),
                  AuthHeaders(cred, timestamp, SignMessage(timestamp, req)))
  }

  /** OkexfRestApi.sign2: the body is encoded and signed only when it is truthy. */
  function Sign2(cred: Credentials, timestamp: string, req: Request): (r: SignedRequest)
    ensures Truthy(req.data) ==> r.body == Text(Dumps(req.data))
    ensures !Truthy(req.data) ==> r.body == Unencoded(req.data)
    ensures |r.headers| == 5 && r.headers[1] == ("OK-ACCESS-SIGN", Sig(Base64HmacSha256(cred.apiSecret, Sign2Message(timestamp, req))))
    ensures (r.httpMethod, r.path, r.params) == (req.httpMethod, req.path, req.params)
  {
    SignedRequest(req.httpMethod, req.path, req.params,
                  if Truthy(req.data) then Text(Dumps(req.data)) else Unencoded(req.data),
                  AuthHeaders(cred, timestamp, Sign2Message(timestamp, req)))
  }

  /** The message of the WebSocket login frame; like the REST messages it is ASCII
      whenever the timestamp is, so the digest signs its characters. */
  function LoginMessage(timestamp: string): (msg: string)
    ensures Printable(timestamp) ==> Printable(msg)
  {
    var msg := timestamp + "GET" + "/users/self/verify";
    if Printable(timestamp) then
      PrintableConcat(timestamp, "GET");
      PrintableConcat(timestamp + "GET", "/users/self/verify");
      msg
    else msg
  }

  /** path gets a query suffix exactly when there are params. */
  lemma PathWithQueryIffParams(path: string, params: seq<(string, string)>)
    ensures PathWithQuery(path, params) == path <==> params == []
  {
    if params != [] {
      assert |PathWithQuery(path, params)| > |path|;
    }
  }

  /** The two profiles sign the same message for a truthy body; for any other
      body `sign` signs the `sign2` message followed by the body's JSON text. */
  lemma ProfilesAgree(timestamp: string, req: Request)
    ensures Truthy(req.data) ==> SignMessage(timestamp, req) == Sign2Message(timestamp, req)
    ensures !Truthy(req.data) ==> SignMessage(timestamp, req) == Sign2Message(timestamp, req) + Dumps(req.data)
  {
  }

  /** With no body `sign` still appends "null" while `sign2` stops at the path. */
  lemma NoBodyMessages(timestamp: string, httpMethod: string, path: string)
    ensures SignMessage(timestamp, Request(httpMethod, path, [], JNull)) == timestamp + httpMethod + path + "null"
    ensures Sign2Message(timestamp, Request(httpMethod, path, [], JNull)) == timestamp + httpMethod + path
  {
  }

  /** The login message is the `sign2` message of a bare GET of /users/self/verify. */
  lemma LoginIsBareSign2(timestamp: string)
    ensures LoginMessage(timestamp) == Sign2Message(timestamp, Request("GET", "/users/self/verify", [], JNull))
  {
  }

  /** After the path and its "?", the query part reads back as the quoted params. */
  lemma {:induction false} QueryReadsBack(path: string, params: seq<(string, string)>)
    requires params != []
    ensures var pq := PathWithQuery(path, params);
            |pq| > |path| && pq[..|path|] == path && pq[|path|] == '?' &&
            ParseQuery(pq[|path| + 1..]) ==
              seq(|params|, i requires 0 <= i < |params| => (QuotePlus(params[i].0), QuotePlus(params[i].1)))
  {
    var pq := PathWithQuery(path, params);
    assert pq[|path| + 1..] == Urlencode(params);
    ParseUrlencode(params);
  }

  lemma QuotedPrintable(s: string)
    requires Quoted(s)
    ensures Printable(s)
  {
    forall k | 0 <= k < |s| ensures ' ' <= s[k] <= '~' {
      assert QuotedChar(s[k]);
    }
  }

  lemma {:induction false} UrlencodePrintable(params: seq<(string, string)>)
    ensures Printable(Urlencode(params))
  {
    var parts := seq(|params|, i requires 0 <= i < |params| => QuotePlus(params[i].0) + "=" + QuotePlus(params[i].1));
    forall i | 0 <= i < |parts| ensures Printable(parts[i]) {
      QuotedPrintable(QuotePlus(params[i].0));
      QuotedPrintable(QuotePlus(params[i].1));
      PrintableConcat(QuotePlus(params[i].0), "=");
      PrintableConcat(QuotePlus(params[i].0) + "=", QuotePlus(params[i].1));
    }
    JoinPrintable(parts, "&");
  }

  /** The message handed to the digest is printable ASCII whenever the timestamp,
      method and path are, so its UTF-8 bytes are its characters. */
  lemma SignMessagePrintable(timestamp: string, req: Request)
    requires Printable(timestamp) && Printable(req.httpMethod) && Printable(req.path)
    requires ReprsPrintable(req.data)
    ensures Printable(SignMessage(timestamp, req)) && Printable(Sign2Message(timestamp, req))
  {
    DumpsPrintable(req.data);
    UrlencodePrintable(req.params);
    PrintableConcat(timestamp, req.httpMethod);
    PrintableConcat(req.path, "?");
    PrintableConcat(req.path + "?", Urlencode(req.params));
    var pq := PathWithQuery(req.path, req.params);
    assert Printable(pq);
    PrintableConcat(timestamp + req.httpMethod, pq);
    PrintableConcat(timestamp + req.httpMethod + pq, Dumps(req.data));
    PrintableConcat(timestamp + req.httpMethod + pq, "");
  }
}
