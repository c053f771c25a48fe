/**
 * The client object: credentials fixed at construction, two public fields
 * naming the virtual account, and a bearer token that `refresh_token`
 * replaces.  Every call describes one request, signs it and sends it; the
 * reply the network delivers is a parameter, and the request put on the
 * wire is returned beside the call's result.
 */
module Client {
  import opened Wrappers
  import opened Php
  import opened Http
  import opened Signing
  import opened Routes
  import opened Payloads
  import Timestamp
  import Decimal

  /**
   * `$type != 'refresh_token'` is false, under PHP's loose comparison,
   * exactly for that string and for `true`; the default `null`, every
   * integer and every other string compare unequal.
   */
  predicate IsRefreshKind(kind: Value): (b: bool)
    ensures b <==> kind == Str("refresh_token") || kind == Bool(true)
  {
    if kind.Int? then
      IntTextReadsBack(kind.i);
      var t := IntText(kind.i);
      assert t[0] == '-' || Decimal.IsDigit(t[0]);
      LooseEquals(kind, "refresh_token")
    else
      LooseEquals(kind, "refresh_token")
  }

  class BriVirtualAccount {
    /** Public, set by the caller; interpolated into paths and bodies. */
    var institutionCode: Value
    var brivaNumber: Value

    const clientId: string
    const clientSecret: string
    const apiUrl: string
    /** The library functions the client calls. */
    const foreign: Foreign

    /** The current bearer token; `null` until a token reply sets it. */
    var token: Value

    /** The object before its first token refresh. */
    constructor (clientId: string, clientSecret: string, apiUrl: string, foreign: Foreign)
      ensures this.clientId == clientId && this.clientSecret == clientSecret && this.apiUrl == apiUrl
      ensures this.foreign == foreign
      ensures institutionCode == Str("0") && brivaNumber == Int(0) && token == Null
    {
      this.clientId := clientId;
      this.clientSecret := clientSecret;
      this.apiUrl := apiUrl;
      this.foreign := foreign;
      institutionCode := Str("0");
      brivaNumber := Int(0);
      token := Null;
    }

    /**
     * `new BRIVirtualAccount(...)`: store the credentials, then refresh the
     * token; a failure of that refresh propagates and no client is made.
     */
    static method Construct(clientId: string, clientSecret: string, apiUrl: string, foreign: Foreign,
                            now: Timestamp.DateTime, reply: Reply)
      returns (sent: HttpRequest, client: Result<BriVirtualAccount, Failure>)
      requires Timestamp.Valid(now)
      ensures sent == HttpRequest("POST", apiUrl + TokenPath, map[ContentType := FormUrlEncoded], RefreshForm(clientId, clientSecret))
      ensures client.Success? <==> Receive(reply, foreign).Success?
      ensures client.Failure? ==> Receive(reply, foreign) == Failure(client.error)
      ensures client.Success? ==>
        var c := client.value;
        && fresh(c)
        && c.clientId == clientId && c.clientSecret == clientSecret && c.apiUrl == apiUrl && c.foreign == foreign
        && c.institutionCode == Str("0") && c.brivaNumber == Int(0)
        && c.token == Index(Receive(reply, foreign).value.response, "access_token")
    {
      var c := new BriVirtualAccount(clientId, clientSecret, apiUrl, foreign);
      var failure;
      sent, failure := c.RefreshToken(now, reply);
      if failure.None? {
        client := Success(c);
      } else {
        client := Failure(failure.value);
      }
    }

    /**
     * The request signature: Base64 of the HMAC-SHA256, under the client
     * secret, of the canonical string with the current token; a null payload
     * contributes the empty string.
     */
    function Signature(path: string, verb: string, timestamp: string, payload: Value := Null): (signature: string)
      reads this
      ensures signature
           == foreign.hmacSha256Base64(clientSecret, SigningString(path, verb, Interpolate(token), timestamp, Interpolate(payload)))
    {
      SigningStringLiteral(path, verb, Interpolate(token), timestamp, Interpolate(payload));
      foreign.hmacSha256Base64(clientSecret,
        "path=" + path + "&verb=" + verb + "&token=Bearer " + Interpolate(token)
        + "&timestamp=" + timestamp + "&body=" + Interpolate(payload))
    }

    /**
     * A request carries the three authentication headers: the current token,
     * the timestamp of `now`, and a signature a server holding the client
     * secret accepts for this very request.
     */
    predicate Signed(sent: HttpRequest, now: Timestamp.DateTime)
      requires Timestamp.Valid(now)
      reads this
    {
      && AuthHeaders <= sent.headers.Keys
      && sent.headers[Authorization] == "Bearer " + Interpolate(token)
      && sent.headers[TimestampHeader] == Timestamp.Format(now)
      && Authentic(foreign.hmacSha256Base64, clientSecret, apiUrl, sent)
    }

    /**
     * `request($data, $type)`: fill in the defaults, sign "/" + path, build
     * the headers, send to the API URL followed by the path, and normalise
     * the reply.
     */
    method Request(data: RequestSpec, kind: Value, now: Timestamp.DateTime, reply: Reply)
      returns (sent: HttpRequest, outcome: Result<ApiResult, Failure>)
      requires Timestamp.Valid(now)
      ensures sent.verb == data.verb.GetOr("GET")
      ensures sent.url == apiUrl + data.path.GetOr("")
      ensures sent.body == BodyText(data.body, foreign)
      ensures !IsRefreshKind(kind) ==>
        && Signed(sent, now)
        && sent.headers[SignatureHeader] == Signature("/" + data.path.GetOr(""), sent.verb, sent.headers[TimestampHeader], Str(sent.body))
      ensures IsRefreshKind(kind) ==> AuthHeaders !! sent.headers.Keys
      ensures ContentType in sent.headers <==> data.contentType.Some?
      ensures data.contentType.Some? ==> sent.headers[ContentType] == data.contentType.value
      ensures sent.headers.Keys <= AuthHeaders + {ContentType}
      ensures outcome == Receive(reply, foreign)
    {
      var verb := data.verb.GetOr("GET");
      var path := data.path.GetOr("");
      var body := BodyText(data.body, foreign);

      var timestamp := Timestamp.Format(now);
      var signature := Signature("/" + path, verb, timestamp, Str(body));

      var headers: map<string, string> := map[];
      if !IsRefreshKind(kind) {
        headers := map[Authorization := "Bearer " + Interpolate(token), TimestampHeader := timestamp, SignatureHeader := signature];
      }
      if data.contentType.Some? {
        headers := headers[ContentType := data.contentType.value];
      }

      var url := apiUrl + path;
      sent := HttpRequest(verb, url, headers, body);
      assert url[|apiUrl|..] == path;
      assert ("Bearer " + Interpolate(token))[7..] == Interpolate(token);
      outcome := Receive(reply, foreign);
    }

    /**
     * `refresh_token()`: ask the token endpoint, without authentication
     * headers, and store the reply's access_token (null when it has none).
     * A failure propagates and leaves the token as it was; nothing else changes.
     */
    method RefreshToken(now: Timestamp.DateTime, reply: Reply) returns (sent: HttpRequest, failure: Option<Failure>)
      requires Timestamp.Valid(now)
      modifies this`token
      ensures sent == HttpRequest("POST", apiUrl + TokenPath, map[ContentType := FormUrlEncoded], RefreshForm(clientId, clientSecret))
      ensures failure.None? <==> Receive(reply, foreign).Success?
      ensures failure.Some? ==> Receive(reply, foreign) == Failure(failure.value) && token == old(token)
      ensures failure.None? ==> token == Index(Receive(reply, foreign).value.response, "access_token")
      ensures failure.None? ==> token == match foreign.jsonDecode(reply.body)
        case Object(props) => Lookup(props, "access_token")
        case _ => Null
    {
      var outcome;
      var spec := RequestSpec(Some("POST"), Some(TokenPath), Some(Text(RefreshForm(clientId, clientSecret))), Some(FormUrlEncoded));
      sent, outcome := Request(spec, Str("refresh_token"), now, reply);
      assert sent.headers == map[ContentType := FormUrlEncoded];
      match outcome
      case Success(result) =>
        token := Index(result.response, "access_token");
        AccessToken(foreign.jsonDecode(reply.body));
        failure := None;
      case Failure(e) =>
        failure := Some(e);
    }

    /** `create($payload)`: the unsent request that would register a virtual account. */
    static function Create(payload: map<string, Value> := map[]): (spec: RequestSpec)
      ensures spec.verb == Some("POST") && spec.path == Some(AccountsPath) && spec.contentType == Some(JsonType)
      ensures spec.body.Some? && spec.body.value.Json? && Filled(spec.body.value.fields, CreateKeys, payload)
    {
      RequestSpec(Some("POST"), Some(AccountsPath), Some(Json(Pick(payload, CreateKeys))), Some(JsonType))
    }

    /** `get_status($customer_code)`: fetch the payment status of one customer's virtual account. */
    method GetStatus(now: Timestamp.DateTime, reply: Reply, customerCode: Value := Str(""))
      returns (sent: HttpRequest, outcome: Result<ApiResult, Failure>)
      requires Timestamp.Valid(now)
      ensures sent.verb == "GET" && sent.body == ""
      ensures sent.url == apiUrl + StatusPath(Interpolate(institutionCode), Interpolate(brivaNumber), Interpolate(customerCode))
      ensures sent.headers.Keys == AuthHeaders && Signed(sent, now)
      ensures outcome == Receive(reply, foreign)
    {
      var path := StatusPath(Interpolate(institutionCode), Interpolate(brivaNumber), Interpolate(customerCode));
      sent, outcome := Request(RequestSpec(None, Some(path), None, None), Null, now, reply);
    }

    /** `get_report($from, $to)`: fetch the report of the virtual account between two dates. */
    method GetReport(now: Timestamp.DateTime, reply: Reply, from: Value, to: Value)
      returns (sent: HttpRequest, outcome: Result<ApiResult, Failure>)
      requires Timestamp.Valid(now)
      ensures sent.verb == "GET" && sent.body == ""
      ensures sent.url == apiUrl + ReportPath(Interpolate(institutionCode), Interpolate(brivaNumber), Interpolate(from), Interpolate(to))
      ensures sent.headers.Keys == AuthHeaders && Signed(sent, now)
      ensures outcome == Receive(reply, foreign)
    {
      var path := ReportPath(Interpolate(institutionCode), Interpolate(brivaNumber), Interpolate(from), Interpolate(to));
      sent, outcome := Request(RequestSpec(None, Some(path), None, None), Null, now, reply);
    }

    /** `get($customer_code)`: fetch one customer's virtual account. */
    method Get(now: Timestamp.DateTime, reply: Reply, customerCode: Value := Str(""))
      returns (sent: HttpRequest, outcome: Result<ApiResult, Failure>)
      requires Timestamp.Valid(now)
      ensures sent.verb == "GET" && sent.body == ""
      ensures sent.url == apiUrl + AccountPath(Interpolate(institutionCode), Interpolate(brivaNumber), Interpolate(customerCode))
      ensures sent.headers.Keys == AuthHeaders && Signed(sent, now)
      ensures outcome == Receive(reply, foreign)
    {
      var path := AccountPath(Interpolate(institutionCode), Interpolate(brivaNumber), Interpolate(customerCode));
      sent, outcome := Request(RequestSpec(None, Some(path), None, None), Null, now, reply);
    }

    /** `update_status($payload)`: the unsent request that would set a payment status. */
    static function UpdateStatus(payload: map<string, Value> := map[]): (spec: RequestSpec)
      ensures spec.verb == Some("PUT") && spec.path == Some(StatusUpdatePath) && spec.contentType == Some(JsonType)
      ensures spec.body.Some? && spec.body.value.Json? && Filled(spec.body.value.fields, StatusKeys, payload)
    {
      RequestSpec(Some("PUT"), Some(StatusUpdatePath), Some(Json(Pick(payload, StatusKeys))), Some(JsonType))
    }

    /**
     * `update($payload)` as written: the identifying keys come from the
     * payload, but the four detail keys are read from `$input`, a variable
     * that is never defined, so they are always "".
     */
    static function Update(payload: map<string, Value> := map[]): (spec: RequestSpec)
      ensures spec.verb == Some("PUT") && spec.path == Some(AccountsPath) && spec.contentType == Some(JsonType)
      ensures spec.body.Some? && spec.body.value.Json?
      ensures var fields := spec.body.value.fields;
        && |fields| == |CreateKeys|
        && Filled(fields[..|IdentityKeys|], IdentityKeys, payload)
        && Filled(fields[|IdentityKeys|..], DetailKeys, map[])
    {
      var input: map<string, Value> := map[];
      var fields := Pick(payload, IdentityKeys) + Pick(input, DetailKeys);
      assert fields[..|IdentityKeys|] == Pick(payload, IdentityKeys);
      assert fields[|IdentityKeys|..] == Pick(input, DetailKeys);
      RequestSpec(Some("PUT"), Some(AccountsPath), Some(Json(fields)), Some(JsonType))
    }

    /**
     * `update($payload)` as evidently intended: the request `create` builds,
     * sent with PUT, so all seven keys come from the payload.
     */
    static function UpdateIntended(payload: map<string, Value> := map[]): (spec: RequestSpec)
      ensures spec.verb == Some("PUT") && spec.path == Some(AccountsPath) && spec.contentType == Some(JsonType)
      ensures spec.body.Some? && spec.body.value.Json? && Filled(spec.body.value.fields, CreateKeys, payload)
    {
      Create(payload).(verb := Some("PUT"))
    }

    /** `delete($customer_code)`: remove one customer's virtual account, identified in a plain-text form body. */
    method Delete(now: Timestamp.DateTime, reply: Reply, customerCode: Value := Str(""))
      returns (sent: HttpRequest, outcome: Result<ApiResult, Failure>)
      requires Timestamp.Valid(now)
      ensures sent.verb == "DELETE" && sent.url == apiUrl + AccountsPath
      ensures sent.body == DeleteForm(Interpolate(institutionCode), Interpolate(brivaNumber), Interpolate(customerCode))
      ensures sent.headers.Keys == AuthHeaders + {ContentType} && sent.headers[ContentType] == PlainText
      ensures Signed(sent, now)
      ensures outcome == Receive(reply, foreign)
    {
      var body := DeleteForm(Interpolate(institutionCode), Interpolate(brivaNumber), Interpolate(customerCode));
      sent, outcome := Request(RequestSpec(Some("DELETE"), Some(AccountsPath), Some(Text(body)), Some(PlainText)), Null, now, reply);
    }
  }

  /** `update` ignores every detail in its payload: two payloads that agree on the identifying keys give the same request. */
  lemma UpdateIgnoresDetails(p: map<string, Value>, q: map<string, Value>)
    requires forall k :: k in IdentityKeys ==> Lookup(p, k) == Lookup(q, k)
    ensures BriVirtualAccount.Update(p) == BriVirtualAccount.Update(q)
  {
    PickReadsOnlyKeys(p, q, IdentityKeys);
  }

  /** A payload naming the account holder: `update` sends "" as "nama", the intended update sends the name. */
  lemma UpdateDropsDetails()
    ensures var payload := map["nama" := Str("Budi")];
      && BriVirtualAccount.Update(payload).body.value.fields[3] == ("nama", Str(""))
      && BriVirtualAccount.UpdateIntended(payload).body.value.fields[3] == ("nama", Str("Budi"))
  {
    var payload := map["nama" := Str("Budi")];
    var written := BriVirtualAccount.Update(payload).body.value.fields;
    assert written[|IdentityKeys|..][0] == written[3];
    assert DetailKeys[0] == "nama";
    assert CreateKeys[3] == "nama";
  }
}
