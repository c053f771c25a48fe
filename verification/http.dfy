/**
 * What the client hands to and receives from its HTTP transport, and the
 * library functions it calls but that are not modelled here (they are given
 * to the client as a `Foreign` value).
 */
module Http {
  import opened Wrappers
  import opened Php
  import Decimal

  /**
   * Library functions the client calls, left uninterpreted:
   * - hmacSha256Base64(key, message): `base64_encode(hash_hmac("sha256", message, key, TRUE))`;
   * - jsonEncode(fields): `json_encode` of an associative array with these keys in this order;
   * - jsonDecode(text): what `json_decode(text)` yields (null when the text does not decode).
   */
  datatype Foreign = Foreign(
    hmacSha256Base64: (string, string) -> string,
    jsonEncode: seq<(string, Value)> -> string,
    jsonDecode: string -> Decoded)

  /**
   * A value `json_decode` yields, objects as `stdClass`: a scalar (null too),
   * a list of scalars, or an object's properties.
   */
  datatype Decoded = Scalar(v: Value) | List(items: seq<Value>) | Object(props: map<string, Value>)

  /**
   * A request body: literal text, or the JSON object `json_encode` makes of an
   * associative array (kept as its fields so that their contents can be stated).
   */
  datatype Body = Text(text: string) | Json(fields: seq<(string, Value)>)

  /**
   * The array a request is described by before it is sent: the keys 'verb',
   * 'path', 'body' and 'type', each of which may be absent.
   */
  datatype RequestSpec = RequestSpec(
    verb: Option<string>, path: Option<string>, body: Option<Body>, contentType: Option<string>)

  /** One HTTP request as it goes on the wire. */
  datatype HttpRequest = HttpRequest(verb: string, url: string, headers: map<string, string>, body: string)

  /** What the network delivers for a request: nothing, or a status and a body. */
  datatype Reply = NoReply | Reply(status: int, body: string)

  /** Why a call raised instead of returning: no connection, or a 5xx status. */
  datatype Failure = ConnectFailed | ServerFailed(status: int, body: string)

  /** The `['code' => …, 'response' => …, 'origin' => …]` array every call returns. */
  datatype ApiResult = ApiResult(code: int, response: map<Key, Value>, origin: string)

  const Authorization := "Authorization"
  const TimestampHeader := "BRI-Timestamp"
  const SignatureHeader := "BRI-Signature"
  const ContentType := "Content-Type"

  /** The three headers that authenticate a request. */
  const AuthHeaders: set<string> := {Authorization, TimestampHeader, SignatureHeader}

  /** The text that is signed and sent for a body; an absent body is the empty string. */
  function BodyText(body: Option<Body>, foreign: Foreign): string {
    match body
    case None => ""
    case Some(Text(t)) => t
    case Some(Json(fields)) => foreign.jsonEncode(fields)
  }

  /**
   * `(array) $d`: null becomes the empty array, any other scalar the array
   * `[0 => $d]`, a list keeps its positions as keys, and an object becomes
   * the array of its properties, indexed by the property names.
   */
  function ArrayCast(d: Decoded): (a: map<Key, Value>)
    ensures d == Scalar(Null) ==> a == map[]
    ensures d.Scalar? && d.v != Null ==> a.Keys == {IntKey(0)} && a[IntKey(0)] == d.v
    ensures d.List? ==> forall i :: 0 <= i < |d.items| ==> IntKey(i) in a && a[IntKey(i)] == d.items[i]
    ensures d.List? ==> forall k :: k in a ==> k.IntKey? && 0 <= k.n < |d.items|
    ensures d.Object? ==> forall name :: Index(a, name) == Lookup(d.props, name)
    ensures d.Object? ==> a.Keys == set p | p in d.props :: ArrayKey(p)
    ensures !d.Object? ==> forall k :: k in a ==> k.IntKey?
  {
    match d
    case Scalar(v) => if v == Null then map[] else map[IntKey(0) := v]
    case List(items) => map i | 0 <= i < |items| :: IntKey(i) := items[i]
    case Object(props) =>
      var a := map p | p in props :: ArrayKey(p) := props[p];
      assert forall name :: Index(a, name) == Lookup(props, name) by {
        forall name
          ensures Index(a, name) == Lookup(props, name)
        {
          if ArrayKey(name) in a {
            var p :| p in props && ArrayKey(p) == ArrayKey(name);
            ArrayKeyInjective(p, name);
          }
        }
      }
      a
  }

  /**
   * `$response['access_token']` of a decoded reply: the object's property
   * (null when it has none); a scalar or a list never carries one.
   */
  lemma AccessToken(d: Decoded)
    ensures Index(ArrayCast(d), "access_token") == if d.Object? then Lookup(d.props, "access_token") else Null
  {
    assert !Decimal.Canonical("access_token") by { assert !Decimal.IsDigit('a'); }
    assert ArrayKey("access_token") == StrKey("access_token");
  }

  /**
   * The outcome of a call from the reply it got.  A 4xx status raises
   * ClientException, which is caught and normalised like a success; a 5xx
   * status raises ServerException and a missing reply a connection error,
   * neither of which is caught.
   */
  function Receive(reply: Reply, foreign: Foreign): (r: Result<ApiResult, Failure>)
    ensures r.Success? <==> reply.Reply? && !(500 <= reply.status < 600)
    ensures r.Success? ==> r.value.code == reply.status && r.value.origin == reply.body
    ensures r.Success? ==> r.value.response == ArrayCast(foreign.jsonDecode(reply.body))
    ensures reply.NoReply? ==> r == Failure(ConnectFailed)
    ensures reply.Reply? && 500 <= reply.status < 600 ==> r == Failure(ServerFailed(reply.status, reply.body))
  {
    match reply
    case NoReply => Failure(ConnectFailed)
    case Reply(status, body) =>
      if 500 <= status < 600 then Failure(ServerFailed(status, body))
      else Success(ApiResult(status, ArrayCast(foreign.jsonDecode(body)), body))
  }
}
