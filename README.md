# go-flaresolverr client core, modelled in Dafny

go-flaresolverr is a Go client for FlareSolverr, a service that drives a real browser to get
past bot-detection challenges. The client builds a JSON command (`request.get` or
`request.post`), POSTs it to one endpoint and decodes the envelope that comes back. This
project models the parts of `flaresolverr.go` that are logic rather than HTTP plumbing:

- **Cookie transcoder** (`CookieCodec`, `cookies.dfy`). `Cookies.MarshalJSON` turns
  `http.Cookie` values into sparse `cookie` wire records: same-site mode to a name, expiry to
  whole Unix seconds, and an empty list to the JSON string `""`. `Cookies.UnmarshalJSON`
  turns wire records back into cookies, with the same-site mode always reset to 0.
  `MarshalJSON` is a method with a loop, proved against the function `Marshal`.
  `UnmarshalJSON` is a method of the class `CookiesVar`, the `*Cookies` receiver it assigns
  through, proved against the function `Unmarshal`.
- **Payload builder** (`Flaresolverr`, `client.dfy`). It resolves the timeout (per-call
  value, then client default, then none) and builds the `requestParams` record for GET and
  POST. It encodes the record with encoding/json's `omitempty` rule and decodes it the way
  the test server (flaresolverr_test.go:49-52) reads it.
- **Result selection**. `Get` turns a non-`"ok"` status into an error carrying the
  envelope's message. `Post` returns the page whatever the status.
- **Client construction**. `NewClient` falls back to `http://localhost:8191/v1` for an
  empty base URL and keeps the timeout unchanged.
- **Scenarios** (`scenarios.dfy`). The GET and POST request cases and the error envelope of the unit
  tests in `flaresolverr_test.go`, plus a timeout-fallback example and the Get and Post outcomes
  that follow from the error envelope.

JSON is an abstract value tree (`Json.Value`). Objects are ordered member lists, so an
omitted field and the `""` sentinel can both be stated. Decoding an object into a record
folds over its members left to right (`Json.DecodeMembers`). Unknown keys are ignored,
`null` keeps the field's value, a later duplicate overwrites an earlier one, and a value of
the wrong kind or a number outside int64 is an `UnmarshalTypeError`. These are encoding/json's rules.

Behaviours of the code that are easy to miss, which the model follows:

- Decoding JSON `null` as a cookie list succeeds with an empty list. Unmarshalling `null`
  into a slice is a no-op, and the receiver is then assigned an empty slice. Every other
  non-array, including the `""` sentinel, is an error that leaves the receiver unchanged.
- `http.SameSite` is a Go `int`. Every value other than Lax (2), Strict (3) and None (4) is
  sent without a `sameSite` member. That covers 0, Default (1) and out-of-range values.
- The `cookies` field of `requestParams` is tagged `omitempty`. An empty list is dropped
  before `MarshalJSON` runs, so the `""` sentinel never appears in a command payload
  (`CookiesMemberIsArray`).
- A cookie whose `Expires` is Go's zero time is sent with expiry `-62135596800` (year 1);
  it is not omitted (`ZeroExpiresIsSent`). A wire record without `expiry` decodes to the
  Unix epoch, not to the zero time (`MissingExpiryDecodesToEpoch`).

## Model

| member | source | states |
|---|---|---|
| CookieCodec.SameSiteName | flaresolverr.go:109-117 | Strict, None and Lax are named "Strict", "None" and "Lax", each name belonging to exactly one mode; every other mode gets the empty name |
| CookieCodec.FromWire | flaresolverr.go:142-153 | a decoded cookie has same-site 0, a whole-second expiry and no other attributes; encoding it again gives back the wire record except for its same-site name |
| CookieCodec.ThroughWire | flaresolverr.go:118-153 | encoding then decoding one cookie keeps name, value, path, domain, secure, httpOnly and the expiry's Unix seconds; a cookie already in decoded form comes back unchanged |
| CookieCodec.WireJsonSparse | flaresolverr.go:90-99 | no member of a wire object holds a zero value (`omitempty`) |
| CookieCodec.WireJsonFields | flaresolverr.go:90-99 | each wire field is stored under its own JSON key, and only when it is not zero |
| CookieCodec.WireJsonRoundTrip | flaresolverr.go:90-99 | decoding a wire object gives back exactly the record it encodes: leaving out zero fields loses nothing |
| CookieCodec.SameSiteSentOnlyForNamedModes | flaresolverr.go:109-127 | a cookie's object has a "sameSite" member exactly for Strict, None and Lax, holding that mode's name |
| CookieCodec.ZeroExpiresIsSent | flaresolverr.go:123 | a cookie whose Expires is Go's zero time is sent with expiry -62135596800, not left out |
| CookieCodec.MarshalJSON | flaresolverr.go:102-131 | the loop builds exactly `Marshal(cs)`: the string "" for no cookies, otherwise one record per cookie, in order |
| CookieCodec.MarshalShape | flaresolverr.go:102-131 | the encoding is the string "" exactly for the empty list; otherwise it is an array as long as the list, whose i-th object decodes to the i-th cookie's record |
| CookieCodec.WireItems | flaresolverr.go:135-136 | decoding an array of records succeeds exactly when every element decodes, and then yields one record per element, in order |
| CookieCodec.Unmarshal | flaresolverr.go:134-157 | decoding succeeds exactly for null (an empty list) and arrays whose elements all decode; the result has one cookie per element, in order, each built from that element's record |
| CookieCodec.CookiesVar.UnmarshalJSON | flaresolverr.go:134-157 | on success the receiver holds `Unmarshal(b)` and no error is returned; on failure the error is returned and the receiver is left unchanged |
| CookieCodec.RoundTrip | flaresolverr.go:102-157 | for a non-empty list, decoding the encoding succeeds with one cookie per cookie, in order, agreeing on name, value, path, domain, secure, httpOnly and expiry seconds, with same-site 0 and no sub-second part |
| CookieCodec.RoundTripExact | flaresolverr.go:102-157 | a non-empty list of cookies already in decoded form round-trips exactly |
| CookieCodec.EmptyListDoesNotRoundTrip | flaresolverr.go:102-105 | the empty list encodes to "" and decoding "" fails |
| CookieCodec.MissingExpiryDecodesToEpoch | flaresolverr.go:143 | a wire object without "expiry" decodes to the Unix epoch, which differs from Go's zero time |
| Flaresolverr.NewClient | flaresolverr.go:35-52 | construction succeeds exactly when the base URL is empty or parses; an empty one becomes the default URL, any other is kept; the timeout is kept unchanged; a rejected URL gives a parse error |
| Flaresolverr.ResolveTimeout | flaresolverr.go:187-193 | a positive per-call timeout wins, else a positive client default, else 0; the result is never negative and is 0 exactly when neither is positive |
| Flaresolverr.RequestFields | flaresolverr.go:253-260 | cmd and url are always sent; postData, maxTimeout, cookies and returnOnlyCookies only when not zero or empty |
| Flaresolverr.CookiesMemberIsArray | flaresolverr.go:258 | the payload has a cookies member exactly when there are cookies, and it is then an array, never the "" sentinel |
| Flaresolverr.GetPayload | flaresolverr.go:186-200 | the GET payload has cmd "request.get" and no postData; maxTimeout appears exactly when the per-call or client timeout is positive and then holds the per-call value if positive, else the client's |
| Flaresolverr.PostPayload | flaresolverr.go:230-245 | the POST payload has cmd "request.post" and postData exactly when the form encoding is not empty; the timeout, cookies and flag are as for GET |
| Flaresolverr.RequestRoundTrip | flaresolverr_test.go:49-52 | decoding a payload gives back the record that was encoded, when its cookies are in decoded form |
| Flaresolverr.GetRaw | flaresolverr.go:186-206 | GetRaw sends the GET payload `RequestJson(GetRequest(c, p))` (its content stated by GetPayload) to the client's base URL through the exchange and returns the envelope or error it answers; encoding the payload never fails, so the json.Marshal error branch is never taken |
| Flaresolverr.PostRaw | flaresolverr.go:230-251 | PostRaw sends the POST payload `RequestJson(PostRequest(c, p, encode))` (its content stated by PostPayload) to the client's base URL through the exchange and returns the envelope or error it answers; encoding the payload never fails |
| Flaresolverr.Get | flaresolverr.go:171-182 | Get fails exactly when GetRaw fails or the status is not "ok" (a missing status included), the latter with the envelope's message as the error; otherwise it returns the solution's response |
| Flaresolverr.Post | flaresolverr.go:219-226 | Post fails exactly when PostRaw fails; otherwise it returns the solution's response, whatever the status |
| Flaresolverr.StatusCheckedOnlyByGet | flaresolverr.go:171-226 | on the same envelope Get and Post differ exactly when the status is not "ok": Get then fails with the message while Post returns the response |
| Scenarios.GetTestPayload | flaresolverr_test.go:28-42 | the GET test request produces exactly the object with cmd, url, maxTimeout 5000 and a one-cookie array |
| Scenarios.GetTestRequestReadBack | flaresolverr_test.go:140-160 | the test server reads back the GET record the test expects |
| Scenarios.PostTestRequestReadBack | flaresolverr_test.go:280-300 | with no form values the POST payload has no postData, and the test server reads back the record the test expects |
| Scenarios.TimeoutFallback | flaresolverr.go:187-193 | an example beyond the unit tests: a per-call timeout of 0 sends the client default 3000; a per-call timeout of 1000 overrides it |
| Scenarios.ErrorEnvelopeOutcomes | flaresolverr_test.go:266-273 | on the error envelope of the unit tests GetRaw and PostRaw return it unchanged; following from it (not exercised by the tests), Get fails with "Error: Not implemented yet." and Post returns the empty page |

## Left out

- `requestURL` (the HTTP POST through net/http, reading the body and decoding the whole response envelope) is the parameter `exchange` of GetRaw and PostRaw. The `Response` and `Solution` records are declared, but decoding them from JSON is not modelled.
- Byte-level JSON text is not modelled: formatting, HTML escaping of `<`, `>` and `&`, invalid UTF-8 replacement and syntax errors. JSON is the value tree `Json.Value`, and its numbers are integers only.
- encoding/json also matches object keys case-insensitively; the model matches keys exactly.
- In `Cookies.UnmarshalJSON`, the inner `json.Unmarshal` keeps decoding after a type error and reports the first error at the end. The model stops at the first error. The outcome is the same: an error, and the receiver is not assigned.
- DecodeRequest: when the test server's decode of a payload fails, Go keeps the well-typed fields already assigned to its `requestParams`, and an error from the nested `Cookies.UnmarshalJSON` stops decoding at once and is reported in place of an earlier type error. The model returns only an error, without the partly filled record, and it reports the first error met.
- `url.Parse` is the predicate parameter `urlParses` of NewClient. `url.Values.Encode` is the function parameter `encode` of PostRequest and Post. Their internals are not modelled.
- `time.Time` is Unix seconds (int64) plus nanoseconds. Locations, the monotonic clock and times beyond int64 Unix seconds are not modelled.
- The `http.Cookie` fields the wire record does not carry (RawExpires, Quoted, MaxAge, Partitioned, Raw, Unparsed) are grouped as `OtherAttrs`. Encoding ignores them and decoding leaves them empty.
- Go's distinction between a nil and an empty slice is not modelled. For example, Post returns an empty sequence where Go returns a nil `json.RawMessage`.
- Error values are modelled by kind; Go's error texts are not, except the solver message that Get returns.
- Go's `int` is taken to be 64 bits wide, as on the platforms the client targets.
- The integration tests (Docker orchestration, live requests, HTML scraping) are not part of this model, nor is their expectation that a live Get returns a page holding an IP address. The httptest harness is not modelled either; the unit tests' request cases and error envelope appear as the lemmas in `Scenarios`.
