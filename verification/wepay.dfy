/** The canonical strings of the WeChat Pay v3 client: the message a request
    signature is computed over, the `Authorization` header, the requests
    that carry them, and the mini-program payment parameters. RSA-SHA256
    signing is the parameter `sign`; request bodies arrive already serialised
    by `JSON.stringify`; the nonce and the timestamp are inputs. */
module WePay {
  import opened Wrappers
  import opened Text

  datatype HttpMethod = GET | POST

  function MethodName(m: HttpMethod): (s: string)
    ensures '\n' !in s
  {
    match m
    case GET => "GET"
    case POST => "POST"
  }

  const API_HOST: string := "https://api.mch.weixin.qq.com"
  const AUTH_SCHEMA: string := "WECHATPAY2-SHA256-RSA2048"
  const PREPAY_PREFIX: string := "prepay_id="
  const EMPTY_BODY: string := "{}"

  lemma DigitsHaveNoSeparators(n: nat)
    ensures '\n' !in NatToString(n) && '"' !in NatToString(n)
  {
    var s := NatToString(n);
    assert forall i :: 0 <= i < |s| ==> IsDigit(s[i]);
  }

  // ---------------------------------------------------------------- generateSignature

  /** The body line of the signed message: empty for `GET`; for `POST` the
      serialised body, or `{}` when none is given. */
  function BodyLine(httpMethod: HttpMethod, body: Option<string>): (line: string)
    ensures httpMethod == GET ==> line == ""
    ensures httpMethod == POST && body.None? ==> line == EMPTY_BODY
    ensures httpMethod == POST && body.Some? ==> line == body.value
  {
    if httpMethod == POST then (if body.None? then EMPTY_BODY else body.value) else ""
  }

  /** The message `generateSignature` signs: method, URL, timestamp, nonce
      and body line, each ended by a newline (so a `GET` message ends in an
      empty line). */
  function SignatureMessage(httpMethod: HttpMethod, url: string, timestamp: nat, nonceStr: string,
                            body: Option<string>): (msg: string)
    ensures |msg| > 0 && msg[|msg| - 1] == '\n'
  {
    Terminated([MethodName(httpMethod), url, NatToString(timestamp), nonceStr, BodyLine(httpMethod, body)], '\n')
  }

  /** When no field holds a newline, splitting the signed message at newlines
      recovers exactly its five lines and a final empty piece. */
  lemma SignatureMessageLines(httpMethod: HttpMethod, url: string, timestamp: nat, nonceStr: string,
                              body: Option<string>)
    ensures '\n' !in url && '\n' !in nonceStr && (body.Some? ==> '\n' !in body.value) ==>
      Split(SignatureMessage(httpMethod, url, timestamp, nonceStr, body), '\n') ==
        [MethodName(httpMethod), url, NatToString(timestamp), nonceStr, BodyLine(httpMethod, body), ""]
  {
    if '\n' !in url && '\n' !in nonceStr && (body.Some? ==> '\n' !in body.value) {
      DigitsHaveNoSeparators(timestamp);
      assert '\n' !in EMPTY_BODY;
      SplitTerminated([MethodName(httpMethod), url, NatToString(timestamp), nonceStr, BodyLine(httpMethod, body)], '\n');
    }
  }

  /** `generateSignature(method, url, timestamp, nonceStr, privateKey, body)`. */
  function GenerateSignature<K>(sign: (K, string) -> string, httpMethod: HttpMethod, url: string,
                                timestamp: nat, nonceStr: string, privateKey: K,
                                body: Option<string>): (signature: string)
    ensures signature == sign(privateKey, Terminated([MethodName(httpMethod), url, NatToString(timestamp),
                                                      nonceStr, BodyLine(httpMethod, body)], '\n'))
  {
    sign(privateKey, SignatureMessage(httpMethod, url, timestamp, nonceStr, body))
  }

  // ---------------------------------------------------------------- generateHeader

  /** `name="value"` pairs separated by commas. */
  function FieldList(fields: seq<(string, string)>): string
  {
    if |fields| == 0 then ""
    else
      var f := fields[0].0 + "=\"" + fields[0].1 + "\"";
      if |fields| == 1 then f else f + "," + FieldList(fields[1..])
  }

  /** The pieces between double quotes of `lead` followed by a field list:
      each field's `name=` (after a comma for all but the first), then its value. */
  function QuotePieces(lead: string, fields: seq<(string, string)>): seq<string>
    decreases |fields|
  {
    if |fields| == 0 then [lead]
    else if |fields| == 1 then [lead + fields[0].0 + "=", fields[0].1, ""]
    else [lead + fields[0].0 + "=", fields[0].1] + QuotePieces(",", fields[1..])
  }

  /** One quoted field and whatever follows it: the text before the opening
      quote, then the value, then the pieces of the rest. */
  lemma SplitQuotedField(lead: string, name: string, value: string, tail: string)
    requires '"' !in lead && '"' !in name && '"' !in value
    ensures Split(lead + name + "=\"" + value + "\"" + tail, '"') == [lead + name + "=", value] + Split(tail, '"')
  {
    assert '"' !in lead + name + "=";
    assert lead + name + "=\"" + value + "\"" + tail == (lead + name + "=") + ['"'] + (value + ['"'] + tail);
    SplitFirst(lead + name + "=", '"', value + ['"'] + tail);
    SplitFirst(value, '"', tail);
  }

  lemma {:induction false} SplitFieldList(lead: string, fields: seq<(string, string)>)
    requires |fields| >= 1
    requires '"' !in lead
    requires forall i :: 0 <= i < |fields| ==> '"' !in fields[i].0 && '"' !in fields[i].1
    ensures Split(lead + FieldList(fields), '"') == QuotePieces(lead, fields)
    decreases |fields|
  {
    var name, value := fields[0].0, fields[0].1;
    var tail := if |fields| == 1 then "" else "," + FieldList(fields[1..]);
    assert lead + FieldList(fields) == lead + name + "=\"" + value + "\"" + tail;
    SplitQuotedField(lead, name, value, tail);
    if |fields| == 1 {
      assert Split(tail, '"') == [""];
    } else {
      SplitFieldList(",", fields[1..]);
    }
  }

  /** The five fields of the header, in their fixed order. */
  function HeaderFields(mchId: string, nonceStr: string, timestamp: nat, serialNo: string,
                        signature: string): seq<(string, string)>
  {
    [("mchid", mchId), ("nonce_str", nonceStr), ("signature", signature),
     ("timestamp", NatToString(timestamp)), ("serial_no", serialNo)]
  }

  lemma HeaderPieces(mchId: string, nonceStr: string, timestamp: nat, serialNo: string, signature: string)
    ensures QuotePieces(AUTH_SCHEMA + " ", HeaderFields(mchId, nonceStr, timestamp, serialNo, signature)) ==
      [AUTH_SCHEMA + " mchid=", mchId, ",nonce_str=", nonceStr, ",signature=", signature,
       ",timestamp=", NatToString(timestamp), ",serial_no=", serialNo, ""]
  {
    var fields := HeaderFields(mchId, nonceStr, timestamp, serialNo, signature);
    var f1, f2, f3, f4 := fields[1..], fields[2..], fields[3..], fields[4..];
    assert f1[1..] == f2 && f2[1..] == f3 && f3[1..] == f4;
    assert QuotePieces(",", f4) == [",serial_no=", serialNo, ""] by {
      assert f4 == [("serial_no", serialNo)];
      assert "," + "serial_no" + "=" == ",serial_no=";
    }
    assert QuotePieces(",", f3) == [",timestamp=", NatToString(timestamp)] + QuotePieces(",", f4) by {
      assert f3[0] == ("timestamp", NatToString(timestamp));
      assert "," + "timestamp" + "=" == ",timestamp=";
    }
    assert QuotePieces(",", f2) == [",signature=", signature] + QuotePieces(",", f3) by {
      assert f2[0] == ("signature", signature);
      assert "," + "signature" + "=" == ",signature=";
    }
    assert QuotePieces(",", f1) == [",nonce_str=", nonceStr] + QuotePieces(",", f2) by {
      assert f1[0] == ("nonce_str", nonceStr);
      assert "," + "nonce_str" + "=" == ",nonce_str=";
    }
    assert AUTH_SCHEMA + " " + "mchid" + "=" == AUTH_SCHEMA + " mchid=";
  }

  /** `generateHeader(...)`: a single `Authorization` header, the scheme, a
      blank, then the quoted fields mchid, nonce_str, signature, timestamp and
      serial_no in that order. */
  function GenerateHeader(mchId: string, nonceStr: string, timestamp: nat, serialNo: string,
                          signature: string): (h: map<string, string>)
    ensures h.Keys == {"Authorization"}
    ensures AUTH_SCHEMA + " " <= h["Authorization"]
  {
    map["Authorization" := AUTH_SCHEMA + " " + FieldList(HeaderFields(mchId, nonceStr, timestamp, serialNo, signature))]
  }

  /** When no field holds a double quote, cutting the header value at its
      quotes recovers each field, in the fixed order. */
  lemma HeaderQuotedFields(mchId: string, nonceStr: string, timestamp: nat, serialNo: string, signature: string)
    ensures '"' !in mchId && '"' !in nonceStr && '"' !in serialNo && '"' !in signature ==>
      Split(GenerateHeader(mchId, nonceStr, timestamp, serialNo, signature)["Authorization"], '"') ==
        [AUTH_SCHEMA + " mchid=", mchId, ",nonce_str=", nonceStr, ",signature=", signature,
         ",timestamp=", NatToString(timestamp), ",serial_no=", serialNo, ""]
  {
    if '"' !in mchId && '"' !in nonceStr && '"' !in serialNo && '"' !in signature {
      DigitsHaveNoSeparators(timestamp);
      assert '"' !in AUTH_SCHEMA + " ";
      SplitFieldList(AUTH_SCHEMA + " ", HeaderFields(mchId, nonceStr, timestamp, serialNo, signature));
      HeaderPieces(mchId, nonceStr, timestamp, serialNo, signature);
    }
  }

  // ---------------------------------------------------------------- requests

  /** What a request method hands to the HTTP client: the method it issues,
      the absolute URL, the serialised body, and the headers; `signedMessage`
      is the message its signature was computed over. */
  datatype SignedRequest = SignedRequest(
    httpMethod: HttpMethod,
    url: string,
    body: Option<string>,
    signedMessage: string,
    headers: map<string, string>)

  /** The shared shape of the request methods: sign `path` as `signedAs`,
      then prepend the host and issue it as `issuedAs`. */
  function BuildRequest<K>(sign: (K, string) -> string, issuedAs: HttpMethod, signedAs: HttpMethod,
                           path: string, body: Option<string>, mchId: string, serialNo: string,
                           privateKey: K, nonceStr: string, timestamp: nat): (r: SignedRequest)
    ensures r.httpMethod == issuedAs && r.body == body
    ensures r.url == API_HOST + path
    ensures r.signedMessage == SignatureMessage(signedAs, path, timestamp, nonceStr, body)
    ensures r.headers == GenerateHeader(mchId, nonceStr, timestamp, serialNo, sign(privateKey, r.signedMessage))
  {
    var message := SignatureMessage(signedAs, path, timestamp, nonceStr, body);
    var signature := GenerateSignature(sign, signedAs, path, timestamp, nonceStr, privateKey, body);
    SignedRequest(issuedAs, API_HOST + path, body,
                  message, GenerateHeader(mchId, nonceStr, timestamp, serialNo, signature))
  }

  const CERTIFICATES_PATH: string := "/v3/certificates"
  const JSAPI_PATH: string := "/v3/pay/transactions/jsapi"

  function TransactionIdPath(id: string, mchId: string): string
  {
    "/v3/pay/transactions/id/" + id + "?mchid=" + mchId
  }

  function OutTradeNoPath(outTradeNo: string, mchId: string): string
  {
    "/v3/pay/transactions/out-trade-no/" + outTradeNo + "?mchid=" + mchId
  }

  /** `getPlatformCertificates(mchId, serialNo, privateKey)` as written: a GET
      whose signature is computed as for a POST without a body. */
  function GetPlatformCertificates<K>(sign: (K, string) -> string, mchId: string, serialNo: string,
                                      privateKey: K, nonceStr: string, timestamp: nat): (r: SignedRequest)
    ensures r.httpMethod == GET && r.url == API_HOST + CERTIFICATES_PATH
    ensures r.body == None
    ensures r.signedMessage == SignatureMessage(POST, CERTIFICATES_PATH, timestamp, nonceStr, None)
    ensures r.headers == GenerateHeader(mchId, nonceStr, timestamp, serialNo, sign(privateKey, r.signedMessage))
  {
    BuildRequest(sign, GET, POST, CERTIFICATES_PATH, None, mchId, serialNo, privateKey, nonceStr, timestamp)
  }

  /** A JSAPI order: the merchant id the header names and the order as
      serialised by `JSON.stringify`. */
  datatype TransactionOrder = TransactionOrder(mchid: string, serialised: string)

  /** `transactionsJsapi(order, serialNo, privateKey)`: a POST of the order,
      signed over the serialised order. */
  function TransactionsJsapi<K>(sign: (K, string) -> string, order: TransactionOrder, serialNo: string,
                                privateKey: K, nonceStr: string, timestamp: nat): (r: SignedRequest)
    ensures r.httpMethod == POST && r.url == API_HOST + JSAPI_PATH && r.body == Some(order.serialised)
    ensures r.signedMessage == SignatureMessage(POST, JSAPI_PATH, timestamp, nonceStr, Some(order.serialised))
    ensures r.headers == GenerateHeader(order.mchid, nonceStr, timestamp, serialNo, sign(privateKey, r.signedMessage))
  {
    BuildRequest(sign, POST, POST, JSAPI_PATH, Some(order.serialised), order.mchid, serialNo,
                 privateKey, nonceStr, timestamp)
  }

  /** `getTransactionsId(id, mchId, serialNo, privateKey)` as written: a GET
      signed as a POST without a body. */
  function GetTransactionsId<K>(sign: (K, string) -> string, id: string, mchId: string, serialNo: string,
                                privateKey: K, nonceStr: string, timestamp: nat): (r: SignedRequest)
    ensures r.httpMethod == GET && r.url == API_HOST + TransactionIdPath(id, mchId)
    ensures r.body == None
    ensures r.signedMessage == SignatureMessage(POST, TransactionIdPath(id, mchId), timestamp, nonceStr, None)
    ensures r.headers == GenerateHeader(mchId, nonceStr, timestamp, serialNo, sign(privateKey, r.signedMessage))
  {
    BuildRequest(sign, GET, POST, TransactionIdPath(id, mchId), None, mchId, serialNo,
                 privateKey, nonceStr, timestamp)
  }

  /** `getTransactionsOutTradeNo(outTradeNo, mchId, serialNo, privateKey)` as
      written: a GET signed as a POST without a body. */
  function GetTransactionsOutTradeNo<K>(sign: (K, string) -> string, outTradeNo: string, mchId: string,
                                        serialNo: string, privateKey: K, nonceStr: string,
                                        timestamp: nat): (r: SignedRequest)
    ensures r.httpMethod == GET && r.url == API_HOST + OutTradeNoPath(outTradeNo, mchId)
    ensures r.body == None
    ensures r.signedMessage == SignatureMessage(POST, OutTradeNoPath(outTradeNo, mchId), timestamp, nonceStr, None)
    ensures r.headers == GenerateHeader(mchId, nonceStr, timestamp, serialNo, sign(privateKey, r.signedMessage))
  {
    BuildRequest(sign, GET, POST, OutTradeNoPath(outTradeNo, mchId), None, mchId, serialNo,
                 privateKey, nonceStr, timestamp)
  }

  /** The message the receiving side rebuilds from a request: its own method,
      the relative path, and its body. */
  function CanonicalMessage(r: SignedRequest, path: string, timestamp: nat, nonceStr: string): string
  {
    SignatureMessage(r.httpMethod, path, timestamp, nonceStr, r.body)
  }

  /** The three GET requests as written sign a message whose first line is
      `POST` and whose body line is `{}`, while the canonical message of the
      request they issue has `GET` and an empty body line: the two differ. */
  lemma GetRequestsSignedAsPost(r: SignedRequest, path: string,
                                timestamp: nat, nonceStr: string)
    requires '\n' !in path && '\n' !in nonceStr
    requires r.httpMethod == GET && r.body == None
    requires r.signedMessage == SignatureMessage(POST, path, timestamp, nonceStr, None)
    ensures Split(r.signedMessage, '\n') == ["POST", path, NatToString(timestamp), nonceStr, EMPTY_BODY, ""]
    ensures Split(CanonicalMessage(r, path, timestamp, nonceStr), '\n') ==
      ["GET", path, NatToString(timestamp), nonceStr, "", ""]
    ensures r.signedMessage != CanonicalMessage(r, path, timestamp, nonceStr)
  {
    SignatureMessageLines(POST, path, timestamp, nonceStr, None);
    SignatureMessageLines(GET, path, timestamp, nonceStr, None);
  }

  /** `getPlatformCertificates` with the signature computed for the request
      it issues (a GET, so an empty body line). */
  function GetPlatformCertificatesSignedAsGet<K>(sign: (K, string) -> string, mchId: string, serialNo: string,
                                                 privateKey: K, nonceStr: string,
                                                 timestamp: nat): (r: SignedRequest)
    ensures r.httpMethod == GET && r.url == API_HOST + CERTIFICATES_PATH
    ensures r.body == None
    ensures r.signedMessage == CanonicalMessage(r, CERTIFICATES_PATH, timestamp, nonceStr)
    ensures r.headers == GenerateHeader(mchId, nonceStr, timestamp, serialNo, sign(privateKey, r.signedMessage))
    ensures '\n' !in nonceStr ==>
      Split(r.signedMessage, '\n') == ["GET", CERTIFICATES_PATH, NatToString(timestamp), nonceStr, "", ""]
  {
    SignatureMessageLines(GET, CERTIFICATES_PATH, timestamp, nonceStr, None);
    BuildRequest(sign, GET, GET, CERTIFICATES_PATH, None, mchId, serialNo, privateKey, nonceStr, timestamp)
  }

  /** `getTransactionsId` signed for the GET it issues. */
  function GetTransactionsIdSignedAsGet<K>(sign: (K, string) -> string, id: string, mchId: string,
                                           serialNo: string, privateKey: K, nonceStr: string,
                                           timestamp: nat): (r: SignedRequest)
    ensures r.httpMethod == GET && r.url == API_HOST + TransactionIdPath(id, mchId)
    ensures r.body == None
    ensures r.signedMessage == CanonicalMessage(r, TransactionIdPath(id, mchId), timestamp, nonceStr)
    ensures r.headers == GenerateHeader(mchId, nonceStr, timestamp, serialNo, sign(privateKey, r.signedMessage))
  {
    BuildRequest(sign, GET, GET, TransactionIdPath(id, mchId), None, mchId, serialNo,
                 privateKey, nonceStr, timestamp)
  }

  /** `getTransactionsOutTradeNo` signed for the GET it issues. */
  function GetTransactionsOutTradeNoSignedAsGet<K>(sign: (K, string) -> string, outTradeNo: string,
                                                   mchId: string, serialNo: string, privateKey: K,
                                                   nonceStr: string, timestamp: nat): (r: SignedRequest)
    ensures r.httpMethod == GET && r.url == API_HOST + OutTradeNoPath(outTradeNo, mchId)
    ensures r.body == None
    ensures r.signedMessage == CanonicalMessage(r, OutTradeNoPath(outTradeNo, mchId), timestamp, nonceStr)
    ensures r.headers == GenerateHeader(mchId, nonceStr, timestamp, serialNo, sign(privateKey, r.signedMessage))
  {
    BuildRequest(sign, GET, GET, OutTradeNoPath(outTradeNo, mchId), None, mchId, serialNo,
                 privateKey, nonceStr, timestamp)
  }

  // ---------------------------------------------------------------- buildMiniProgramPayment

  /** The parameters a mini program passes to `wx.requestPayment`. */
  datatype MiniProgramPayment = MiniProgramPayment(
    timeStamp: string,
    nonceStr: string,
    package: string,
    signType: string,
    paySign: string)

  /** The message the payment signature is computed over: app id, timestamp,
      nonce and `prepay_id=<id>`, each ended by a newline. */
  function PaymentMessage(appId: string, timestamp: nat, nonceStr: string, prepayId: string): string
  {
    Terminated([appId, NatToString(timestamp), nonceStr, PREPAY_PREFIX + prepayId], '\n')
  }

  /** When no field holds a newline, splitting the payment message at newlines
      recovers its four lines and a final empty piece. */
  lemma PaymentMessageLines(appId: string, timestamp: nat, nonceStr: string, prepayId: string)
    ensures '\n' !in appId && '\n' !in nonceStr && '\n' !in prepayId ==>
      Split(PaymentMessage(appId, timestamp, nonceStr, prepayId), '\n') ==
        [appId, NatToString(timestamp), nonceStr, PREPAY_PREFIX + prepayId, ""]
  {
    if '\n' !in appId && '\n' !in nonceStr && '\n' !in prepayId {
      DigitsHaveNoSeparators(timestamp);
      assert '\n' !in PREPAY_PREFIX;
      SplitTerminated([appId, NatToString(timestamp), nonceStr, PREPAY_PREFIX + prepayId], '\n');
    }
  }

  /** `buildMiniProgramPayment(appId, prepayId, privateKey)`: the package is
      `prepay_id=<id>`, the sign type `RSA`, the timestamp the decimal form of
      the one signed (it reads back as that number), the nonce the one signed,
      and the signature is over the payment message. */
  function BuildMiniProgramPayment<K>(sign: (K, string) -> string, appId: string, prepayId: string,
                                      privateKey: K, nonceStr: string, timestamp: nat): (p: MiniProgramPayment)
    ensures p.package == PREPAY_PREFIX + prepayId
    ensures p.signType == "RSA"
    ensures p.nonceStr == nonceStr
    ensures p.timeStamp == NatToString(timestamp)
    ensures (forall i :: 0 <= i < |p.timeStamp| ==> IsDigit(p.timeStamp[i])) && ParseNat(p.timeStamp) == timestamp
    ensures p.paySign == sign(privateKey, PaymentMessage(appId, timestamp, nonceStr, prepayId))
  {
    var message := PaymentMessage(appId, timestamp, nonceStr, prepayId);
    var paySign := sign(privateKey, message);
    ParseNatToString(timestamp);
    MiniProgramPayment(NatToString(timestamp), nonceStr, PREPAY_PREFIX + prepayId, "RSA", paySign)
  }
}
