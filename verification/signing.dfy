/**
 * The canonical string a request's signature is computed over:
 * `path=P&verb=V&token=Bearer T&timestamp=S&body=B`, five fields in a fixed
 * order joined by '&'.
 */
module Signing {
  import opened Wrappers
  import opened Strings
  import opened Http

  /** The five values a signature covers. */
  datatype SignedFields = SignedFields(path: string, verb: string, token: string, timestamp: string, body: string)

  /** The canonical string: each field behind its label, joined by '&'. */
  function SigningString(path: string, verb: string, token: string, timestamp: string, body: string): string {
    Join(["path=" + path, "verb=" + verb, "token=Bearer " + token, "timestamp=" + timestamp, "body=" + body], '&')
  }

  /**
   * How a verifier reads the canonical string back: the first four fields end
   * at the next '&', the body is all the rest.
   */
  function ParseSigningString(m: string): Option<SignedFields> {
    var parts := Split(m, '&');
    if |parts| < 5 then None
    else
      var rest := Join(parts[4..], '&');
      if && HasPrefix(parts[0], "path=") && HasPrefix(parts[1], "verb=")
         && HasPrefix(parts[2], "token=Bearer ") && HasPrefix(parts[3], "timestamp=")
         && HasPrefix(rest, "body=")
      then Some(SignedFields(parts[0][5..], parts[1][5..], parts[2][13..], parts[3][10..], rest[5..]))
      else None
  }

  /** Path, verb, token and timestamp free of '&' can be read back, and so can any body. */
  lemma SigningStringRoundTrip(path: string, verb: string, token: string, timestamp: string, body: string)
    requires '&' !in path && '&' !in verb && '&' !in token && '&' !in timestamp
    ensures ParseSigningString(SigningString(path, verb, token, timestamp, body))
         == Some(SignedFields(path, verb, token, timestamp, body))
  {
    var m := SigningString(path, verb, token, timestamp, body);
    var last := "body=" + body;
    SigningStringSplit(path, verb, token, timestamp, body);
    var parts := Split(m, '&');
    assert parts[4..] == Split(last, '&');
    JoinSplit(last, '&');
    Labelled("path=", path);
    Labelled("verb=", verb);
    Labelled("token=Bearer ", token);
    Labelled("timestamp=", timestamp);
    Labelled("body=", body);
  }

  /** The canonical string splits at '&' into its first four fields and the pieces of the body field. */
  lemma SigningStringSplit(path: string, verb: string, token: string, timestamp: string, body: string)
    requires '&' !in path && '&' !in verb && '&' !in token && '&' !in timestamp
    ensures Split(SigningString(path, verb, token, timestamp, body), '&')
         == ["path=" + path, "verb=" + verb, "token=Bearer " + token, "timestamp=" + timestamp]
            + Split("body=" + body, '&')
  {
    var fields := ["path=" + path, "verb=" + verb, "token=Bearer " + token, "timestamp=" + timestamp, "body=" + body];
    var firsts := fields[..4];
    assert firsts == ["path=" + path, "verb=" + verb, "token=Bearer " + token, "timestamp=" + timestamp];
    assert Separable(firsts, '&') by {
      assert '&' !in "path=" + path && '&' !in "verb=" + verb;
      assert '&' !in "token=Bearer " + token && '&' !in "timestamp=" + timestamp;
    }
    SplitJoinLast(fields, '&');
  }

  /** A labelled field starts with its label, and the rest is its value. */
  lemma Labelled(name: string, value: string)
    ensures HasPrefix(name + value, name) && (name + value)[|name|..] == value
  {
    assert (name + value)[..|name|] == name;
  }

  /** Whatever the verifier reads is exactly what was signed, with '&'-free leading fields. */
  lemma ParseSigningStringSound(m: string)
    requires ParseSigningString(m).Some?
    ensures var f := ParseSigningString(m).value;
      && SigningString(f.path, f.verb, f.token, f.timestamp, f.body) == m
      && '&' !in f.path && '&' !in f.verb && '&' !in f.token && '&' !in f.timestamp
  {
    var f := ParseSigningString(m).value;
    var parts := Split(m, '&');
    var rest := Join(parts[4..], '&');
    SplitSeparable(m, '&');
    assert "path=" + f.path == parts[0];
    assert "verb=" + f.verb == parts[1];
    assert "token=Bearer " + f.token == parts[2];
    assert "timestamp=" + f.timestamp == parts[3];
    assert "body=" + f.body == rest;
    assert '&' !in parts[0] && '&' !in parts[1] && '&' !in parts[2] && '&' !in parts[3];
    JoinSuffix(parts, 4, '&');
    assert parts[..4] + [rest] == ["path=" + f.path, "verb=" + f.verb, "token=Bearer " + f.token, "timestamp=" + f.timestamp, "body=" + f.body];
    JoinSplit(m, '&');
  }

  /** The canonical string, written out as one interpolation. */
  lemma SigningStringLiteral(path: string, verb: string, token: string, timestamp: string, body: string)
    ensures SigningString(path, verb, token, timestamp, body)
         == "path=" + path + "&verb=" + verb + "&token=Bearer " + token + "&timestamp=" + timestamp + "&body=" + body
  {
    var xs := ["path=" + path, "verb=" + verb, "token=Bearer " + token, "timestamp=" + timestamp, "body=" + body];
    JoinFive(xs, '&');
    var a1 := ['&'] + xs[1];
    var a2 := ['&'] + xs[2];
    var a3 := ['&'] + xs[3];
    var a4 := ['&'] + xs[4];
    assert a1 == "&verb=" + verb;
    assert a2 == "&token=Bearer " + token;
    assert a3 == "&timestamp=" + timestamp;
    assert a4 == "&body=" + body;
    var p := "path=" + path;
    assert SigningString(path, verb, token, timestamp, body) == p + a1 + a2 + a3 + a4;
    var q1 := p + "&verb=" + verb;
    assert p + a1 == q1;
    var q2 := q1 + "&token=Bearer " + token;
    assert q1 + a2 == q2;
    var q3 := q2 + "&timestamp=" + timestamp;
    assert q2 + a3 == q3;
    var q4 := q3 + "&body=" + body;
    assert q3 + a4 == q4;
  }

  lemma JoinFive(xs: seq<string>, sep: char)
    requires |xs| == 5
    ensures Join(xs, sep) == xs[0] + ([sep] + xs[1]) + ([sep] + xs[2]) + ([sep] + xs[3]) + ([sep] + xs[4])
  {
    assert Join(xs[4..], sep) == xs[4];
    assert xs[3..][1..] == xs[4..];
    assert Join(xs[3..], sep) == xs[3] + ([sep] + xs[4]);
    assert xs[2..][1..] == xs[3..];
    assert Join(xs[2..], sep) == xs[2] + ([sep] + xs[3]) + ([sep] + xs[4]);
    assert xs[1..][1..] == xs[2..];
    assert Join(xs[1..], sep) == xs[1] + ([sep] + xs[2]) + ([sep] + xs[3]) + ([sep] + xs[4]);
  }

  /**
   * Fields are not separated by anything they cannot contain: a path with
   * "&verb=" in it signs the same string as a different path and verb.
   */
  lemma SigningStringAmbiguous(token: string, timestamp: string, body: string)
    ensures SigningString("/a&verb=b", "c", token, timestamp, body)
         == SigningString("/a", "b&verb=c", token, timestamp, body)
  {
    SigningStringLiteral("/a&verb=b", "c", token, timestamp, body);
    SigningStringLiteral("/a", "b&verb=c", token, timestamp, body);
    assert "path=" + "/a&verb=b" + "&verb=" + "c" == "path=" + "/a" + "&verb=" + "b&verb=c";
  }

  /**
   * The check a server holding `secret` can make on a received request: the
   * BRI-Signature header is the MAC of the canonical string rebuilt from the
   * request's own verb, path (after the API URL), bearer token, BRI-Timestamp
   * header and body.
   */
  predicate Authentic(mac: (string, string) -> string, secret: string, apiUrl: string, req: HttpRequest) {
    var h := req.headers;
    && Authorization in h && TimestampHeader in h && SignatureHeader in h
    && HasPrefix(h[Authorization], "Bearer ")
    && HasPrefix(req.url, apiUrl)
    && h[SignatureHeader]
       == mac(secret, SigningString("/" + req.url[|apiUrl|..], req.verb, h[Authorization][7..], h[TimestampHeader], req.body))
  }
}
