# BRI virtual-account client, modelled in Dafny

This project models `BRIVirtualAccount`, a small PHP client for a bank's
virtual-account API (BRIVA). A client object holds a client id, a client
secret, the API base URL and a bearer token. It also has two public fields
naming the virtual account: the institution code and the BRIVA number.

Every authenticated call does the same steps:

- describes the request as a verb, a path, a body and a content type;
- stamps it with a UTC timestamp of the form `YYYY-MM-DDTHH:MM:SS.000Z`;
- signs it with Base64(HMAC-SHA256(secret, `path=/P&verb=V&token=Bearer T&timestamp=S&body=B`));
- sends it with the `Authorization`, `BRI-Timestamp` and `BRI-Signature` headers;
- turns the reply into a `{code, response, origin}` record.

The token comes from an unauthenticated form POST to the token endpoint and is replaced wholesale on each refresh.

`create`, `update_status` and `update` only build a request description; they do not send it. `get_status`, `get`, `get_report` and `delete` send.

The modules follow the pieces of the class:

- `Client`: the class `BriVirtualAccount`. The clock reading and the network reply are parameters of its methods, and each sending method returns the request it put on the wire beside its result.
- `Signing`: the canonical signing string, how a server reads it back, and what a server can check.
- `Timestamp`: the timestamp format and its parser.
- `Routes`: the request paths and form bodies.
- `Payloads`: the fixed-key JSON payloads.
- `Http`: requests, replies, results, what `json_decode` yields, the `(array)` cast, and the normalisation of replies.
- `Php`: PHP scalars, their string conversion, loose comparison with a word, `isset`, array keys and array lookup.
- `Strings` and `Decimal`: the supporting theory of splitting, joining and decimal numerals.

## Model

| member | source | states |
|---|---|---|
| Client.BriVirtualAccount.constructor | libraries/BRIVirtualAccount.php:11-28 | credentials are stored; institution code is "0", BRIVA number is 0, token is null before any refresh |
| Client.BriVirtualAccount.Construct | libraries/BRIVirtualAccount.php:24-30 | construction sends exactly the token request; it yields a client iff the token request returns, with the token taken from the reply's `response['access_token']`; a failed refresh propagates and no client is made |
| Client.BriVirtualAccount.Signature | libraries/BRIVirtualAccount.php:37-41 | the signature is the MAC under the client secret of the five-field canonical string with the current token; a null payload signs as the empty body |
| Client.BriVirtualAccount.Request | libraries/BRIVirtualAccount.php:43-84 | verb defaults to GET, path and body to ""; URL is API URL + path; the signed path is "/" + path and the signed body is the sent body; non-token requests carry Bearer token, the formatted timestamp and a signature a server accepts for this very request; token requests carry none of the three; Content-Type present iff a type is given, with that value; no other header; result is the normalised reply |
| Client.BriVirtualAccount.RefreshToken | libraries/BRIVirtualAccount.php:86-96 | sends POST to the token path with the client-id/secret form body and only the form-encoded Content-Type; on a reply the token becomes `response['access_token']`: the access_token property when the body decodes to an object, null when it has none or the body decodes to anything else; on failure the token is unchanged; nothing else changes |
| Client.BriVirtualAccount.Create | libraries/BRIVirtualAccount.php:98-118 | POST v1/briva, application/json; the body has exactly the seven keys in order, each copied when set in the payload and "" otherwise |
| Client.BriVirtualAccount.GetStatus | libraries/BRIVirtualAccount.php:120-127 | sends signed GET to API URL + v1/briva/status/inst/briva/customer with an empty body and exactly the three authentication headers |
| Client.BriVirtualAccount.GetReport | libraries/BRIVirtualAccount.php:129-136 | sends signed GET to API URL + v1/briva/report/inst/briva/from/to with an empty body and exactly the three authentication headers |
| Client.BriVirtualAccount.Get | libraries/BRIVirtualAccount.php:138-145 | sends signed GET to API URL + v1/briva/inst/briva/customer with an empty body and exactly the three authentication headers |
| Client.BriVirtualAccount.UpdateStatus | libraries/BRIVirtualAccount.php:147-164 | PUT v1/briva/status, application/json; the body has exactly the four keys in order, each copied when set and "" otherwise |
| Client.BriVirtualAccount.Update | libraries/BRIVirtualAccount.php:166-186 | PUT v1/briva, application/json, seven keys; the three identifying keys come from the payload, the four detail keys are always "" |
| Client.BriVirtualAccount.UpdateIntended | libraries/BRIVirtualAccount.php:166-186 | the update as intended: PUT v1/briva, application/json, all seven keys filled from the payload |
| Client.BriVirtualAccount.Delete | libraries/BRIVirtualAccount.php:188-198 | sends signed DELETE to API URL + v1/briva with the Text/plain form body of the three identifying fields; headers are the three authentication headers and Content-Type |
| Client.UpdateIgnoresDetails | libraries/BRIVirtualAccount.php:166-176 | two payloads that agree on the three identifying keys give the same update request |
| Client.UpdateDropsDetails | libraries/BRIVirtualAccount.php:172 | for the payload nama = "Budi", update sends nama "" while the intended update sends "Budi" |
| Payloads.Pick | libraries/BRIVirtualAccount.php:100-108 | the filled array has exactly the listed keys in order; a key set in the payload carries its value, every other key carries "" |
| Payloads.PickReadsOnlyKeys | libraries/BRIVirtualAccount.php:149-154 | the filled array depends on the payload only through the listed keys |
| Http.Receive | libraries/BRIVirtualAccount.php:68-83 | a reply of any status other than 5xx becomes a result with that code, the raw body as origin, and the `(array)` cast of the decoded body as response; a 5xx reply or no reply raises |
| Http.ArrayCast | libraries/BRIVirtualAccount.php:72-76 | `(array)` of a decoded body: null gives the empty array; another scalar gives exactly `[0 => v]`; a list gives its positions as keys with its items; an object gives an array whose keys are exactly its property names (integer-like names as integers), with the entry under every name that property (null when absent); only an object gives string keys |
| Http.AccessToken | libraries/BRIVirtualAccount.php:95 | `$response['access_token']` of a cast reply is the object's access_token property, and null for a scalar or a list |
| Php.ArrayKey | libraries/BRIVirtualAccount.php:72-76 | a string key is stored as an integer key only when it is that integer's decimal text, and otherwise as itself |
| Php.ArrayKeyOfIntText | libraries/BRIVirtualAccount.php:72-76 | the decimal text of every integer is stored as that integer |
| Php.Interpolate | libraries/BRIVirtualAccount.php:39 | `"{$v}"` is empty exactly for null, false and ""; a string is copied and true is "1"; an integer becomes a text that is stored as that integer and holds no '&' or '/' |
| Client.IsRefreshKind | libraries/BRIVirtualAccount.php:54 | `$type != 'refresh_token'` is false exactly for the string refresh_token and for true; null, every integer and every other string compare unequal |
| Payloads.Submitted | libraries/BRIVirtualAccount.php:101 | `isset($payload[$k]) ? $payload[$k] : ""` is never null; it equals the payload's value exactly when the payload sets the key to something other than null, and is "" otherwise |
| Timestamp.YearText | libraries/BRIVirtualAccount.php:34 | the year is written as at least four digits that read back as the year: exactly four (zero-padded) below 10000, and the shortest numeral, without leading zeros, from 10000 on |
| Timestamp.Format | libraries/BRIVirtualAccount.php:32-35 | the timestamp ends in ".000Z" with a 'T' fourteen characters from the end; it is exactly 24 characters when the year is below 10000 and longer otherwise; it never contains '&' |
| Timestamp.FormatShape | libraries/BRIVirtualAccount.php:32-35 | before year 10000 the timestamp has the fixed yyyy-MM-ddTHH:mm:ss.000Z shape: separators at their positions, digits everywhere else |
| Timestamp.ParseFormat | libraries/BRIVirtualAccount.php:32-35 | every valid date and time before year 10000 is read back from its timestamp |
| Timestamp.FormatParse | libraries/BRIVirtualAccount.php:32-35 | every text the parser accepts is the timestamp of what it reads |
| Signing.SigningStringLiteral | libraries/BRIVirtualAccount.php:39 | the canonical string is the literal concatenation path=…&verb=…&token=Bearer …&timestamp=…&body=… |
| Signing.SigningStringRoundTrip | libraries/BRIVirtualAccount.php:39 | with path, verb, token and timestamp free of '&', a server reads back exactly the five signed fields, whatever the body |
| Signing.ParseSigningStringSound | libraries/BRIVirtualAccount.php:39 | whatever a server reads back re-serialises to the string it read, with '&'-free leading fields |
| Signing.SigningStringAmbiguous | libraries/BRIVirtualAccount.php:39 | a path containing "&verb=" signs the same string as a different path and verb |
| Php.IntTextReadsBack | libraries/BRIVirtualAccount.php:12 | an integer field is written as its canonical decimal, which reads back and holds no '&' or '/' |
| Routes.StatusPath | libraries/BRIVirtualAccount.php:123 | with arguments free of '/', the status path splits into v1, briva, status and the three arguments |
| Routes.ReportPath | libraries/BRIVirtualAccount.php:132 | with arguments free of '/', the report path splits into v1, briva, report and the four arguments |
| Routes.AccountPath | libraries/BRIVirtualAccount.php:141 | with arguments free of '/', the account path splits into v1, briva and the three arguments |
| Routes.DeleteForm | libraries/BRIVirtualAccount.php:194 | with values free of '&', the delete form splits into exactly institutionCode=, brivaNo= and custCode= fields |
| Routes.RefreshForm | libraries/BRIVirtualAccount.php:91 | with credentials free of '&', the token form splits into exactly client_id= and client_secret= fields |

## Left out

- HMAC-SHA256, Base64, `json_encode` and `json_decode` are library functions. They are uninterpreted function fields of `Http.Foreign`. The JSON grammar is not modelled, and a JSON body is kept as its ordered fields.
- The HTTP transport (Guzzle's `Client`, `sendAsync`, `wait`) is not modelled. What the network delivers is a `Reply` parameter: no reply, or a status and a body.
- Besides successful replies, only 4xx replies are normalised into a result. The code catches only `ClientException`, which Guzzle raises for 4xx. A 5xx reply raises `ServerException`, which propagates, and so does a connection error. The model has 5xx and no reply as `Failure` values.
- The clock is not read. `gmdate` is replaced by a `DateTime` parameter. Negative years (PHP writes them with a leading '-') are not modelled; `DateTime.year` is a nat.
- Floats, arrays and objects as field or payload values are not modelled. `Php.Value` covers null, booleans, integers and strings. So a decoded reply is null, a scalar, a list of scalars or an object with scalar properties; nested lists and objects are not modelled.
- Php.ArrayKey: integer-like strings outside PHP's integer range stay strings in PHP; the model's integers are unbounded, so it stores every integer text as an integer.
- Client.IsRefreshKind: the comparison follows PHP 8. PHP 7 compares an integer with a non-numeric string numerically, so `0` would also count as refresh_token there. No caller passes an integer.
- Payload keys are strings that are not integer texts, as every key the class reads is; `Payloads` keeps them as plain strings.
- Client.BriVirtualAccount.Request: a token request without a content type sends an empty header map. PHP would pass an undefined `$headers` (null) to Guzzle; no caller in the class does this.
- Client.BriVirtualAccount.RefreshToken: only the `response` array of the call's result is read. A reply whose `access_token` is an object or array is outside `Php.Value`.
- `Client.BriVirtualAccount.Construct` and the constructor are separate members. A Dafny constructor cannot fail, so the plain constructor covers the field assignments, and `Construct` adds the refresh whose failure propagates.

## Findings

| source | as written | input that shows it | evidently intended | confidence | as-written member | corrected member |
|---|---|---|---|---|---|---|
| libraries/BRIVirtualAccount.php:172-175 | the four detail keys `nama`, `amount`, `keterangan` and `expiredDate` are read from `$input`, which is never defined in `update`, so they are always "" | `update(['nama' => 'Budi'])` sends `nama` as "" | read the four detail keys from `$payload`, as `create` does | high; not executed | Client.UpdateDropsDetails | Client.BriVirtualAccount.UpdateIntended |
