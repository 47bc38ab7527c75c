/**
 * The client: construction from a Config, the command payload that GetRaw and PostRaw send
 * (the `requestParams` record and its `omitempty` fields), and how Get and Post pick their
 * result out of the response envelope.
 */
module Flaresolverr {
  import opened Wrappers
  import opened Json
  import opened CookieCodec

  const DefaultBaseURL := "http://localhost:8191/v1"

  const CmdGet := "request.get"
  const CmdPost := "request.post"

  const StatusOK := "ok"
  const StatusError := "error"

  datatype Config = Config(baseURL: string, timeout: Int64)

  /** A Client is never changed after NewClient builds it. */
  datatype Client = Client(baseURL: string, timeout: Int64)

  /** NewClient. `urlParses` stands for url.Parse returning no error. An empty base URL falls
      back to the default without being parsed; the timeout is kept as given. */
  function NewClient(cfg: Config, urlParses: string -> bool): (r: Result<Client>)
    ensures r.Success? <==> cfg.baseURL == "" || urlParses(cfg.baseURL)
    ensures r.Failure? ==> r.error == URLParseError(cfg.baseURL)
    ensures r.Success? ==> r.value.baseURL == (if cfg.baseURL == "" then DefaultBaseURL else cfg.baseURL)
    ensures r.Success? ==> r.value.baseURL != "" && r.value.timeout == cfg.timeout
  {
    if cfg.baseURL == "" then Success(Client(DefaultBaseURL, cfg.timeout))
    else if !urlParses(cfg.baseURL) then Failure(URLParseError(cfg.baseURL))
    else Success(Client(cfg.baseURL, cfg.timeout))
  }

  /** The timeout switch of GetRaw and PostRaw: the per-call value wins when positive, then the
      client's default when positive; otherwise no timeout (0). */
  function ResolveTimeout(perCall: Int64, clientDefault: Int64): (t: Int64)
    ensures t >= 0
    ensures perCall > 0 ==> t == perCall
    ensures perCall <= 0 && clientDefault > 0 ==> t == clientDefault
    ensures t == 0 <==> perCall <= 0 && clientDefault <= 0
  {
    if perCall > 0 then perCall
    else if clientDefault > 0 then clientDefault
    else 0
  }

  datatype GetParams = GetParams(url: string, maxTimeout: Int64, cookies: seq<Cookie>, returnOnlyCookies: bool)

  /** url.Values. */
  type FormValues = map<string, seq<string>>

  datatype PostParams = PostParams(
    url: string,
    postData: FormValues,
    maxTimeout: Int64,
    cookies: seq<Cookie>,
    returnOnlyCookies: bool)

  /** The unexported `requestParams` record; all but cmd and url are tagged `omitempty`. */
  datatype RequestParams = RequestParams(
    cmd: string,
    url: string,
    postData: string,
    maxTimeout: Int64,
    cookies: seq<Cookie>,
    returnOnlyCookies: bool)

  const EmptyRequest := RequestParams("", "", "", 0, [], false)

  /** The record GetRaw marshals. */
  function GetRequest(c: Client, p: GetParams): RequestParams {
    RequestParams(CmdGet, p.url, "", ResolveTimeout(p.maxTimeout, c.timeout), p.cookies, p.returnOnlyCookies)
  }

  /** The record PostRaw marshals; `encode` stands for url.Values.Encode. */
  function PostRequest(c: Client, p: PostParams, encode: FormValues -> string): RequestParams {
    RequestParams(CmdPost, p.url, encode(p.postData), ResolveTimeout(p.maxTimeout, c.timeout), p.cookies, p.returnOnlyCookies)
  }

  /** json.Marshal of the record. An empty cookie list is dropped by `omitempty` before
      Cookies.MarshalJSON is ever asked for it. */
  function RequestJson(r: RequestParams): Value {
    Object(
      PutIf(true, "cmd", String(r.cmd),
      PutIf(true, "url", String(r.url),
      Put("postData", String(r.postData),
      Put("maxTimeout", Number(r.maxTimeout),
      PutIf(|r.cookies| > 0, "cookies", Marshal(r.cookies),
      Put("returnOnlyCookies", Bool(r.returnOnlyCookies), [])))))))
  }

  /** Decoding one member of a payload object into the record; "cookies" goes through
      Cookies.UnmarshalJSON. */
  function RequestStep(r: RequestParams, m: Member): Result<RequestParams> {
    if m.key == "cmd" then
      var s :- DecodeString("cmd", m.value, r.cmd); Success(r.(cmd := s))
    else if m.key == "url" then
      var s :- DecodeString("url", m.value, r.url); Success(r.(url := s))
    else if m.key == "postData" then
      var s :- DecodeString("postData", m.value, r.postData); Success(r.(postData := s))
    else if m.key == "maxTimeout" then
      var n :- DecodeInt64("maxTimeout", m.value, r.maxTimeout); Success(r.(maxTimeout := n))
    else if m.key == "cookies" then
      var cs :- Unmarshal(m.value); Success(r.(cookies := cs))
    else if m.key == "returnOnlyCookies" then
      var b :- DecodeBool("returnOnlyCookies", m.value, r.returnOnlyCookies); Success(r.(returnOnlyCookies := b))
    else
      Success(r)
  }

  /** json.Unmarshal of a payload into the record, as the test server (flaresolverr_test.go:49-52) reads it. */
  function DecodeRequest(j: Value): Result<RequestParams> {
    match j
    case Null => Success(EmptyRequest)
    case Object(ms) => DecodeMembers(EmptyRequest, ms, RequestStep)
    case _ => Failure(UnmarshalTypeError("requestParams"))
  }

  /** Looking a key up in the payload object. */
  lemma RequestFields(r: RequestParams, k: string)
    ensures Lookup(RequestJson(r).members, k) ==
      if k == "cmd" then Some(String(r.cmd))
      else if k == "url" then Some(String(r.url))
      else if k == "postData" && r.postData != "" then Some(String(r.postData))
      else if k == "maxTimeout" && r.maxTimeout != 0 then Some(Number(r.maxTimeout))
      else if k == "cookies" && |r.cookies| > 0 then Some(Marshal(r.cookies))
      else if k == "returnOnlyCookies" && r.returnOnlyCookies then Some(Bool(true))
      else None
  {
    var r6 := Put("returnOnlyCookies", Bool(r.returnOnlyCookies), []);
    var r5 := PutIf(|r.cookies| > 0, "cookies", Marshal(r.cookies), r6);
    var r4 := Put("maxTimeout", Number(r.maxTimeout), r5);
    var r3 := Put("postData", String(r.postData), r4);
    var r2 := PutIf(true, "url", String(r.url), r3);
    LookupPutIf(true, "cmd", String(r.cmd), r2, k);
    LookupPutIf(true, "url", String(r.url), r3, k);
    LookupPutIf(r.postData != "", "postData", String(r.postData), r4, k);
    LookupPutIf(r.maxTimeout != 0, "maxTimeout", Number(r.maxTimeout), r5, k);
    LookupPutIf(|r.cookies| > 0, "cookies", Marshal(r.cookies), r6, k);
    LookupPutIf(r.returnOnlyCookies, "returnOnlyCookies", Bool(r.returnOnlyCookies), [], k);
  }

  /** The cookies member, when there is one, is an array: the `""` sentinel never reaches a payload. */
  lemma CookiesMemberIsArray(r: RequestParams)
    ensures Lookup(RequestJson(r).members, "cookies").Some? <==> r.cookies != []
    ensures Lookup(RequestJson(r).members, "cookies").Some? ==> Lookup(RequestJson(r).members, "cookies").value.Array?
  {
    RequestFields(r, "cookies");
    MarshalShape(r.cookies);
  }

  /** The GET payload: cmd "request.get", no postData, maxTimeout only when the resolved timeout
      is positive (the per-call value first, then the client's), cookies only when there are
      some, returnOnlyCookies only when true. */
  lemma GetPayload(c: Client, p: GetParams)
    ensures var ms := RequestJson(GetRequest(c, p)).members;
      Lookup(ms, "cmd") == Some(String("request.get")) &&
      Lookup(ms, "url") == Some(String(p.url)) &&
      Lookup(ms, "postData") == None &&
      (Lookup(ms, "maxTimeout").Some? <==> p.maxTimeout > 0 || c.timeout > 0) &&
      (p.maxTimeout > 0 ==> Lookup(ms, "maxTimeout") == Some(Number(p.maxTimeout))) &&
      (p.maxTimeout <= 0 && c.timeout > 0 ==> Lookup(ms, "maxTimeout") == Some(Number(c.timeout))) &&
      Lookup(ms, "cookies") == (if p.cookies == [] then None else Some(Marshal(p.cookies))) &&
      Lookup(ms, "returnOnlyCookies") == (if p.returnOnlyCookies then Some(Bool(true)) else None)
  {
    var r := GetRequest(c, p);
    RequestFields(r, "cmd");
    RequestFields(r, "url");
    RequestFields(r, "postData");
    RequestFields(r, "maxTimeout");
    RequestFields(r, "cookies");
    RequestFields(r, "returnOnlyCookies");
  }

  /** The POST payload: as for GET but cmd "request.post", with postData holding the form
      encoding exactly when that encoding is not empty. */
  lemma PostPayload(c: Client, p: PostParams, encode: FormValues -> string)
    ensures var ms := RequestJson(PostRequest(c, p, encode)).members;
      Lookup(ms, "cmd") == Some(String("request.post")) &&
      Lookup(ms, "url") == Some(String(p.url)) &&
      Lookup(ms, "postData") == (if encode(p.postData) == "" then None else Some(String(encode(p.postData)))) &&
      (Lookup(ms, "maxTimeout").Some? <==> p.maxTimeout > 0 || c.timeout > 0) &&
      (p.maxTimeout > 0 ==> Lookup(ms, "maxTimeout") == Some(Number(p.maxTimeout))) &&
      (p.maxTimeout <= 0 && c.timeout > 0 ==> Lookup(ms, "maxTimeout") == Some(Number(c.timeout))) &&
      Lookup(ms, "cookies") == (if p.cookies == [] then None else Some(Marshal(p.cookies))) &&
      Lookup(ms, "returnOnlyCookies") == (if p.returnOnlyCookies then Some(Bool(true)) else None)
  {
    var r := PostRequest(c, p, encode);
    RequestFields(r, "cmd");
    RequestFields(r, "url");
    RequestFields(r, "postData");
    RequestFields(r, "maxTimeout");
    RequestFields(r, "cookies");
    RequestFields(r, "returnOnlyCookies");
  }

  /** Decoding the first three payload members into an empty record. */
  lemma DecodeRequestHead(r: RequestParams, rest: seq<Member>)
    ensures DecodeMembers(EmptyRequest,
      PutIf(true, "cmd", String(r.cmd), PutIf(true, "url", String(r.url),
      Put("postData", String(r.postData), rest))), RequestStep)
      == DecodeMembers(EmptyRequest.(cmd := r.cmd, url := r.url, postData := r.postData), rest, RequestStep)
  {
    var r3 := Put("postData", String(r.postData), rest);
    var r2 := PutIf(true, "url", String(r.url), r3);
    var a1 := EmptyRequest.(cmd := r.cmd);
    var a2 := a1.(url := r.url);
    var a3 := a2.(postData := r.postData);
    DecodePutIf(EmptyRequest, true, "cmd", String(r.cmd), r2, RequestStep, a1);
    DecodePutIf(a1, true, "url", String(r.url), r3, RequestStep, a2);
    DecodePutIf(a2, r.postData != "", "postData", String(r.postData), rest, RequestStep, a3);
  }

  /** Decoding the last three payload members into a record where those fields are zero. */
  lemma DecodeRequestTail(acc: RequestParams, r: RequestParams)
    requires acc.maxTimeout == 0 && acc.cookies == [] && !acc.returnOnlyCookies
    requires forall i :: 0 <= i < |r.cookies| ==> AsDecoded(r.cookies[i])
    ensures DecodeMembers(acc,
      Put("maxTimeout", Number(r.maxTimeout), PutIf(|r.cookies| > 0, "cookies", Marshal(r.cookies),
      Put("returnOnlyCookies", Bool(r.returnOnlyCookies), []))), RequestStep)
      == Success(acc.(maxTimeout := r.maxTimeout, cookies := r.cookies, returnOnlyCookies := r.returnOnlyCookies))
  {
    var r6 := Put("returnOnlyCookies", Bool(r.returnOnlyCookies), []);
    var r5 := PutIf(|r.cookies| > 0, "cookies", Marshal(r.cookies), r6);
    var a4 := acc.(maxTimeout := r.maxTimeout);
    var a5 := a4.(cookies := r.cookies);
    var a6 := a5.(returnOnlyCookies := r.returnOnlyCookies);
    if |r.cookies| > 0 {
      RoundTripExact(r.cookies);
    }
    DecodePutIf(acc, r.maxTimeout != 0, "maxTimeout", Number(r.maxTimeout), r5, RequestStep, a4);
    DecodePutIf(a4, |r.cookies| > 0, "cookies", Marshal(r.cookies), r6, RequestStep, a5);
    DecodePutIf(a5, r.returnOnlyCookies, "returnOnlyCookies", Bool(r.returnOnlyCookies), [], RequestStep, a6);
  }

  /** The test server (flaresolverr_test.go:49-52) reads back the record that was sent, provided its cookies carry nothing the
      wire cannot (no same-site mode, whole-second expiry, no other attributes). */
  lemma RequestRoundTrip(r: RequestParams)
    requires forall i :: 0 <= i < |r.cookies| ==> AsDecoded(r.cookies[i])
    ensures DecodeRequest(RequestJson(r)) == Success(r)
  {
    var tail := Put("maxTimeout", Number(r.maxTimeout), PutIf(|r.cookies| > 0, "cookies", Marshal(r.cookies),
      Put("returnOnlyCookies", Bool(r.returnOnlyCookies), [])));
    DecodeRequestHead(r, tail);
    DecodeRequestTail(EmptyRequest.(cmd := r.cmd, url := r.url, postData := r.postData), r);
  }

  // ---- The response envelope and result selection ----

  datatype Solution = Solution(
    url: string,
    status: Int64,
    cookies: seq<Cookie>,
    userAgent: string,
    response: seq<Byte>)  // json.RawMessage: the solved page, left undecoded

  datatype Response = Response(
    status: string,
    message: string,
    solution: Solution,
    startTimestamp: Int64,
    endTimestamp: Int64,
    version: string)

  /** requestURL: POSTs the payload to the base URL and decodes the envelope, or fails. */
  type Exchange = (string, Value) -> Result<Response>

  /** GetRaw: sends the GET payload to the client's base URL and returns the whole envelope.
      Encoding the payload cannot fail, so every failure is the exchange's. */
  function GetRaw(c: Client, p: GetParams, exchange: Exchange): (r: Result<Response>)
    ensures r == exchange(c.baseURL, RequestJson(GetRequest(c, p)))
  {
    exchange(c.baseURL, RequestJson(GetRequest(c, p)))
  }

  /** PostRaw: sends the POST payload to the client's base URL and returns the whole envelope.
      Encoding the payload cannot fail, so every failure is the exchange's. */
  function PostRaw(c: Client, p: PostParams, encode: FormValues -> string, exchange: Exchange): (r: Result<Response>)
    ensures r == exchange(c.baseURL, RequestJson(PostRequest(c, p, encode)))
  {
    exchange(c.baseURL, RequestJson(PostRequest(c, p, encode)))
  }

  /** Get fails exactly when GetRaw fails or the envelope's status is not "ok" (a missing status
      included), the latter with the envelope's message; otherwise it returns the solved page. */
  function Get(c: Client, p: GetParams, exchange: Exchange): (r: Result<seq<Byte>>)
    ensures r.Failure? <==> GetRaw(c, p, exchange).Failure? || GetRaw(c, p, exchange).value.status != StatusOK
    ensures GetRaw(c, p, exchange).Failure? ==> r == Failure(GetRaw(c, p, exchange).error)
    ensures GetRaw(c, p, exchange).Success? && GetRaw(c, p, exchange).value.status != StatusOK ==>
      r == Failure(SolverError(GetRaw(c, p, exchange).value.message))
    ensures r.Success? ==> r.value == GetRaw(c, p, exchange).value.solution.response
  {
    var resp :- GetRaw(c, p, exchange);
    if resp.status != StatusOK then Failure(SolverError(resp.message))
    else Success(resp.solution.response)
  }

  /** Post fails only when PostRaw fails: it returns the solved page whatever the status. */
  function Post(c: Client, p: PostParams, encode: FormValues -> string, exchange: Exchange): (r: Result<seq<Byte>>)
    ensures r.Failure? <==> PostRaw(c, p, encode, exchange).Failure?
    ensures r.Failure? ==> r.error == PostRaw(c, p, encode, exchange).error
    ensures r.Success? ==> r.value == PostRaw(c, p, encode, exchange).value.solution.response
  {
    var resp :- PostRaw(c, p, encode, exchange);
    Success(resp.solution.response)
  }

  /** Given the same envelope, Get and Post disagree exactly when its status is not "ok":
      Get then reports the message as an error while Post still returns the page. */
  lemma StatusCheckedOnlyByGet(c: Client, gp: GetParams, pp: PostParams, encode: FormValues -> string, exchange: Exchange)
    requires GetRaw(c, gp, exchange) == PostRaw(c, pp, encode, exchange)
    ensures Get(c, gp, exchange) != Post(c, pp, encode, exchange) <==>
      GetRaw(c, gp, exchange).Success? && GetRaw(c, gp, exchange).value.status != StatusOK
    ensures Get(c, gp, exchange) != Post(c, pp, encode, exchange) ==>
      Get(c, gp, exchange) == Failure(SolverError(GetRaw(c, gp, exchange).value.message)) &&
      Post(c, pp, encode, exchange) == Success(GetRaw(c, gp, exchange).value.solution.response)
  {
  }
}
