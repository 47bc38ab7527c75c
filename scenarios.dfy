/** The request cases and the error envelope of the unit tests (flaresolverr_test.go), plus a
    timeout-fallback example and the Get and Post outcomes that follow from that envelope. */
module Scenarios {
  import opened Wrappers
  import opened Json
  import opened CookieCodec
  import opened Flaresolverr

  /** The one cookie every test request carries. */
  const OGPC := Cookie("OGPC", "19033459-1:", "/", ".try.me", UnixTime(1679759834), false, false, 0, NoOtherAttrs)

  /** Its wire object: no httpOnly, secure or sameSite member, since those are zero. */
  const OGPCJson := Object([
    Member("name", String("OGPC")),
    Member("value", String("19033459-1:")),
    Member("path", String("/")),
    Member("domain", String(".try.me")),
    Member("expiry", Number(1679759834))])

  /** An exchange that answers every payload with the same envelope. */
  function Canned(resp: Response): Exchange {
    (url: string, payload: Value) => Success(resp)
  }

  /** The envelope of the error test cases. */
  const ErrorEnvelope := Response(
    StatusError, "Error: Not implemented yet.", Solution("", 0, [], "", []), 1674574599950, 1674574599952, "3.0.2")

  /** The GET test: a client without a default timeout and a per-call timeout of 5000 sends
      exactly this payload. */
  lemma GetTestPayload(baseURL: string)
    ensures RequestJson(GetRequest(Client(baseURL, 0), GetParams("https://try.me", 5000, [OGPC], false))) ==
      Object([
        Member("cmd", String("request.get")),
        Member("url", String("https://try.me")),
        Member("maxTimeout", Number(5000)),
        Member("cookies", Array([OGPCJson]))])
  {
    var w := Wire("OGPC", "19033459-1:", "/", ".try.me", 1679759834, false, false, "");
    assert ToWire(OGPC) == w;
    assert WireToJson(w) == OGPCJson;
    assert seq(1, i requires 0 <= i < 1 => ToWire([OGPC][i])) == [w];
    assert WiresToJson([w]).items == [OGPCJson];
  }

  /** The test server decodes the GET payload back into the record the test expects. */
  lemma GetTestRequestReadBack(baseURL: string)
    ensures DecodeRequest(RequestJson(GetRequest(Client(baseURL, 0), GetParams("https://try.me", 5000, [OGPC], false)))) ==
      Success(RequestParams(CmdGet, "https://try.me", "", 5000, [OGPC], false))
  {
    RequestRoundTrip(RequestParams(CmdGet, "https://try.me", "", 5000, [OGPC], false));
  }

  /** The POST test sends no form values; their encoding is empty, so no postData is sent and
      the test server reads back the record the test expects. */
  lemma PostTestRequestReadBack(baseURL: string, encode: FormValues -> string)
    requires encode(map[]) == ""
    ensures DecodeRequest(RequestJson(PostRequest(Client(baseURL, 0),
      PostParams("https://try.me/form-post-tester.php", map[], 5000, [OGPC], false), encode))) ==
      Success(RequestParams(CmdPost, "https://try.me/form-post-tester.php", "", 5000, [OGPC], false))
  {
    RequestRoundTrip(RequestParams(CmdPost, "https://try.me/form-post-tester.php", "", 5000, [OGPC], false));
  }

  /** A per-call timeout of 0 falls back to a client default of 3000; one of 1000 overrides it. */
  lemma TimeoutFallback(baseURL: string, url: string)
    ensures Lookup(RequestJson(GetRequest(Client(baseURL, 3000), GetParams(url, 0, [], false))).members, "maxTimeout")
      == Some(Number(3000))
    ensures Lookup(RequestJson(GetRequest(Client(baseURL, 3000), GetParams(url, 1000, [], false))).members, "maxTimeout")
      == Some(Number(1000))
  {
    GetPayload(Client(baseURL, 3000), GetParams(url, 0, [], false));
    GetPayload(Client(baseURL, 3000), GetParams(url, 1000, [], false));
  }

  /** The error envelope: GetRaw and PostRaw return it, Get turns it into an error carrying its
      message, and Post returns its (empty) page. */
  lemma ErrorEnvelopeOutcomes(c: Client, gp: GetParams, pp: PostParams, encode: FormValues -> string)
    ensures GetRaw(c, gp, Canned(ErrorEnvelope)) == Success(ErrorEnvelope)
    ensures PostRaw(c, pp, encode, Canned(ErrorEnvelope)) == Success(ErrorEnvelope)
    ensures Get(c, gp, Canned(ErrorEnvelope)) == Failure(SolverError("Error: Not implemented yet."))
    ensures Post(c, pp, encode, Canned(ErrorEnvelope)) == Success([])
  {
  }
}
