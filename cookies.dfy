/**
 * The cookie transcoder: `Cookies.MarshalJSON` and `Cookies.UnmarshalJSON`, which turn a
 * list of net/http cookies into the sparse `cookie` wire records the solver speaks and back.
 */
module CookieCodec {
  import opened Wrappers
  import opened Json

  /** net/http's SameSite is a Go `int`: 0 is "not set", the named modes are 1 to 4. */
  type SameSite = int

  const SameSiteDefaultMode: SameSite := 1
  const SameSiteLaxMode: SameSite := 2
  const SameSiteStrictMode: SameSite := 3
  const SameSiteNoneMode: SameSite := 4

  type Nanos = n: int | 0 <= n < 1_000_000_000

  /** A time.Time, reduced to Unix seconds and the nanoseconds within that second. */
  datatype Time = Time(sec: Int64, nsec: Nanos) {
    /** time.Time.Unix: whole seconds, the fraction of a second dropped. */
    function Unix(): Int64 {
      sec
    }
  }

  /** time.Unix(sec, 0). */
  function UnixTime(sec: Int64): Time {
    Time(sec, 0)
  }

  /** Go's zero time.Time (January 1 of year 1, UTC), as Unix seconds. */
  const ZeroTime: Time := Time(-62_135_596_800, 0)

  /** The fields of http.Cookie that the wire record does not carry. */
  datatype OtherAttrs = OtherAttrs(
    rawExpires: string, quoted: bool, maxAge: int, partitioned: bool, raw: string, unparsed: seq<string>)

  const NoOtherAttrs := OtherAttrs("", false, 0, false, "", [])

  /** http.Cookie. */
  datatype Cookie = Cookie(
    name: string,
    value: string,
    path: string,
    domain: string,
    expires: Time,
    secure: bool,
    httpOnly: bool,
    sameSite: SameSite,
    other: OtherAttrs)

  /** The unexported `cookie` wire record; every field is tagged `omitempty`. */
  datatype Wire = Wire(
    name: string,
    value: string,
    path: string,
    domain: string,
    expiry: Int64,
    httpOnly: bool,
    secure: bool,
    sameSite: string)

  const EmptyWire := Wire("", "", "", "", 0, false, false, "")

  /** Exactly the three named modes Strict, None and Lax get a name, and each its own. */
  function SameSiteName(m: SameSite): (s: string)
    ensures s == "Strict" <==> m == SameSiteStrictMode
    ensures s == "None" <==> m == SameSiteNoneMode
    ensures s == "Lax" <==> m == SameSiteLaxMode
    ensures s == "" <==> !(m == SameSiteStrictMode || m == SameSiteNoneMode || m == SameSiteLaxMode)
  {
    if m == SameSiteStrictMode then "Strict"
    else if m == SameSiteNoneMode then "None"
    else if m == SameSiteLaxMode then "Lax"
    else ""
  }

  /** The record MarshalJSON builds for one cookie. */
  function ToWire(c: Cookie): Wire {
    Wire(c.name, c.value, c.path, c.domain, c.expires.Unix(), c.httpOnly, c.secure, SameSiteName(c.sameSite))
  }

  /** The cookie UnmarshalJSON builds from one record: encoding it again gives the record back,
      except for the same-site name, which decoding always drops. */
  function FromWire(w: Wire): (c: Cookie)
    ensures c.sameSite == 0 && c.expires.nsec == 0 && c.other == NoOtherAttrs
    ensures ToWire(c) == w.(sameSite := "")
  {
    Cookie(w.name, w.value, w.path, w.domain, UnixTime(w.expiry), w.secure, w.httpOnly, 0, NoOtherAttrs)
  }

  /** The cookie fields the wire carries agree, the expiry up to whole seconds. */
  predicate AgreeOnWire(c: Cookie, d: Cookie) {
    d.name == c.name && d.value == c.value && d.path == c.path && d.domain == c.domain &&
    d.secure == c.secure && d.httpOnly == c.httpOnly && d.expires.Unix() == c.expires.Unix()
  }

  /** A cookie as decoding produces it: no same-site mode, no sub-second expiry, no other attributes. */
  predicate AsDecoded(c: Cookie) {
    c.sameSite == 0 && c.expires.nsec == 0 && c.other == NoOtherAttrs
  }

  lemma ThroughWire(c: Cookie)
    ensures AgreeOnWire(c, FromWire(ToWire(c))) && AsDecoded(FromWire(ToWire(c)))
    ensures AsDecoded(c) ==> FromWire(ToWire(c)) == c
  {
  }

  // ---- One record as a JSON object ----

  /** json.Marshal of one record: a field holding its zero value is left out. */
  function WireToJson(w: Wire): (j: Value)
    ensures j.Object?
  {
    Object(
      Put("name", String(w.name),
      Put("value", String(w.value),
      Put("path", String(w.path),
      Put("domain", String(w.domain),
      Put("expiry", Number(w.expiry),
      Put("httpOnly", Bool(w.httpOnly),
      Put("secure", Bool(w.secure),
      Put("sameSite", String(w.sameSite), [])))))))))
  }

  /** The object is sparse: no member holds a zero value. */
  lemma WireJsonSparse(w: Wire)
    ensures NoEmptyMembers(WireToJson(w).members)
  {
  }

  /** Decoding one member of a record object into the record. */
  function WireStep(w: Wire, m: Member): Result<Wire> {
    if m.key == "name" then
      var s :- DecodeString("name", m.value, w.name); Success(w.(name := s))
    else if m.key == "value" then
      var s :- DecodeString("value", m.value, w.value); Success(w.(value := s))
    else if m.key == "path" then
      var s :- DecodeString("path", m.value, w.path); Success(w.(path := s))
    else if m.key == "domain" then
      var s :- DecodeString("domain", m.value, w.domain); Success(w.(domain := s))
    else if m.key == "expiry" then
      var n :- DecodeInt64("expiry", m.value, w.expiry); Success(w.(expiry := n))
    else if m.key == "httpOnly" then
      var b :- DecodeBool("httpOnly", m.value, w.httpOnly); Success(w.(httpOnly := b))
    else if m.key == "secure" then
      var b :- DecodeBool("secure", m.value, w.secure); Success(w.(secure := b))
    else if m.key == "sameSite" then
      var s :- DecodeString("sameSite", m.value, w.sameSite); Success(w.(sameSite := s))
    else
      Success(w)
  }

  /** json.Unmarshal of one array element into a record: `null` leaves it zero. */
  function WireFromJson(j: Value): Result<Wire> {
    match j
    case Null => Success(EmptyWire)
    case Object(ms) => DecodeMembers(EmptyWire, ms, WireStep)
    case _ => Failure(UnmarshalTypeError("cookie"))
  }

  /** Decoding the four string members of a record object into an empty record. */
  lemma DecodeStringMembers(w: Wire, rest: seq<Member>)
    ensures DecodeMembers(EmptyWire,
      Put("name", String(w.name), Put("value", String(w.value),
      Put("path", String(w.path), Put("domain", String(w.domain), rest)))), WireStep)
      == DecodeMembers(EmptyWire.(name := w.name, value := w.value, path := w.path, domain := w.domain), rest, WireStep)
  {
    var r4 := Put("domain", String(w.domain), rest);
    var r3 := Put("path", String(w.path), r4);
    var r2 := Put("value", String(w.value), r3);
    var w1 := EmptyWire.(name := w.name);
    var w2 := w1.(value := w.value);
    var w3 := w2.(path := w.path);
    var w4 := w3.(domain := w.domain);
    DecodePutIf(EmptyWire, w.name != "", "name", String(w.name), r2, WireStep, w1);
    DecodePutIf(w1, w.value != "", "value", String(w.value), r3, WireStep, w2);
    DecodePutIf(w2, w.path != "", "path", String(w.path), r4, WireStep, w3);
    DecodePutIf(w3, w.domain != "", "domain", String(w.domain), rest, WireStep, w4);
  }

  /** Decoding the last four members of a record object into a record where those fields are zero. */
  lemma DecodeOtherMembers(acc: Wire, w: Wire)
    requires acc.expiry == 0 && !acc.httpOnly && !acc.secure && acc.sameSite == ""
    ensures DecodeMembers(acc,
      Put("expiry", Number(w.expiry), Put("httpOnly", Bool(w.httpOnly),
      Put("secure", Bool(w.secure), Put("sameSite", String(w.sameSite), [])))), WireStep)
      == Success(acc.(expiry := w.expiry, httpOnly := w.httpOnly, secure := w.secure, sameSite := w.sameSite))
  {
    var r8 := Put("sameSite", String(w.sameSite), []);
    var r7 := Put("secure", Bool(w.secure), r8);
    var r6 := Put("httpOnly", Bool(w.httpOnly), r7);
    var a5 := acc.(expiry := w.expiry);
    var a6 := a5.(httpOnly := w.httpOnly);
    var a7 := a6.(secure := w.secure);
    var a8 := a7.(sameSite := w.sameSite);
    DecodePutIf(acc, w.expiry != 0, "expiry", Number(w.expiry), r6, WireStep, a5);
    DecodePutIf(a5, w.httpOnly, "httpOnly", Bool(w.httpOnly), r7, WireStep, a6);
    DecodePutIf(a6, w.secure, "secure", Bool(w.secure), r8, WireStep, a7);
    DecodePutIf(a7, w.sameSite != "", "sameSite", String(w.sameSite), [], WireStep, a8);
  }

  /** The sparse object loses nothing: every record decodes back from its own encoding. */
  lemma WireJsonRoundTrip(w: Wire)
    ensures WireFromJson(WireToJson(w)) == Success(w)
  {
    var others := Put("expiry", Number(w.expiry), Put("httpOnly", Bool(w.httpOnly),
      Put("secure", Bool(w.secure), Put("sameSite", String(w.sameSite), []))));
    var acc := EmptyWire.(name := w.name, value := w.value, path := w.path, domain := w.domain);
    DecodeStringMembers(w, others);
    DecodeOtherMembers(acc, w);
  }

  /** Looking a key up among the four string members of a record object. */
  lemma LookupStringMembers(w: Wire, rest: seq<Member>, k: string)
    ensures Lookup(Put("name", String(w.name), Put("value", String(w.value),
      Put("path", String(w.path), Put("domain", String(w.domain), rest)))), k) ==
      if k == "name" && w.name != "" then Some(String(w.name))
      else if k == "value" && w.value != "" then Some(String(w.value))
      else if k == "path" && w.path != "" then Some(String(w.path))
      else if k == "domain" && w.domain != "" then Some(String(w.domain))
      else Lookup(rest, k)
  {
    var r4 := Put("domain", String(w.domain), rest);
    var r3 := Put("path", String(w.path), r4);
    var r2 := Put("value", String(w.value), r3);
    LookupPutIf(w.name != "", "name", String(w.name), r2, k);
    LookupPutIf(w.value != "", "value", String(w.value), r3, k);
    LookupPutIf(w.path != "", "path", String(w.path), r4, k);
    LookupPutIf(w.domain != "", "domain", String(w.domain), rest, k);
  }

  /** Looking a key up among the last four members of a record object. */
  lemma LookupOtherMembers(w: Wire, k: string)
    ensures Lookup(Put("expiry", Number(w.expiry), Put("httpOnly", Bool(w.httpOnly),
      Put("secure", Bool(w.secure), Put("sameSite", String(w.sameSite), [])))), k) ==
      if k == "expiry" && w.expiry != 0 then Some(Number(w.expiry))
      else if k == "httpOnly" && w.httpOnly then Some(Bool(true))
      else if k == "secure" && w.secure then Some(Bool(true))
      else if k == "sameSite" && w.sameSite != "" then Some(String(w.sameSite))
      else None
  {
    var r8 := Put("sameSite", String(w.sameSite), []);
    var r7 := Put("secure", Bool(w.secure), r8);
    var r6 := Put("httpOnly", Bool(w.httpOnly), r7);
    LookupPutIf(w.expiry != 0, "expiry", Number(w.expiry), r6, k);
    LookupPutIf(w.httpOnly, "httpOnly", Bool(w.httpOnly), r7, k);
    LookupPutIf(w.secure, "secure", Bool(w.secure), r8, k);
    LookupPutIf(w.sameSite != "", "sameSite", String(w.sameSite), [], k);
  }

  /** Each field sits under its own key, and only when it is not zero. */
  lemma WireJsonFields(w: Wire, k: string)
    ensures Lookup(WireToJson(w).members, k) ==
      if k == "name" && w.name != "" then Some(String(w.name))
      else if k == "value" && w.value != "" then Some(String(w.value))
      else if k == "path" && w.path != "" then Some(String(w.path))
      else if k == "domain" && w.domain != "" then Some(String(w.domain))
      else if k == "expiry" && w.expiry != 0 then Some(Number(w.expiry))
      else if k == "httpOnly" && w.httpOnly then Some(Bool(true))
      else if k == "secure" && w.secure then Some(Bool(true))
      else if k == "sameSite" && w.sameSite != "" then Some(String(w.sameSite))
      else None
  {
    var others := Put("expiry", Number(w.expiry), Put("httpOnly", Bool(w.httpOnly),
      Put("secure", Bool(w.secure), Put("sameSite", String(w.sameSite), []))));
    LookupStringMembers(w, others, k);
    LookupOtherMembers(w, k);
  }

  /** The object for a cookie carries "sameSite" exactly for the Strict, None and Lax modes. */
  lemma SameSiteSentOnlyForNamedModes(c: Cookie)
    ensures var ss := Lookup(WireToJson(ToWire(c)).members, "sameSite");
      (ss.Some? <==> c.sameSite in {SameSiteStrictMode, SameSiteNoneMode, SameSiteLaxMode}) &&
      (c.sameSite == SameSiteStrictMode ==> ss == Some(String("Strict"))) &&
      (c.sameSite == SameSiteNoneMode ==> ss == Some(String("None"))) &&
      (c.sameSite == SameSiteLaxMode ==> ss == Some(String("Lax")))
  {
    WireJsonFields(ToWire(c), "sameSite");
  }

  /** A cookie left with Go's zero Expires is sent with an expiry in year 1 rather than none. */
  lemma ZeroExpiresIsSent(c: Cookie)
    requires c.expires == ZeroTime
    ensures Lookup(WireToJson(ToWire(c)).members, "expiry") == Some(Number(-62_135_596_800))
  {
    WireJsonFields(ToWire(c), "expiry");
  }

  /** Members without an "expiry" key leave the record's expiry as it was. */
  lemma {:induction false} ExpiryKept(acc: Wire, ms: seq<Member>)
    requires forall m | m in ms :: m.key != "expiry"
    requires DecodeMembers(acc, ms, WireStep).Success?
    ensures DecodeMembers(acc, ms, WireStep).value.expiry == acc.expiry
    decreases |ms|
  {
    if ms != [] {
      assert ms[0] in ms;
      var next := WireStep(acc, ms[0]).value;
      assert forall m | m in ms[1..] :: m in ms;
      ExpiryKept(next, ms[1..]);
    }
  }

  // ---- The list ----

  /** json.Marshal of a []cookie: one object per record, in order. */
  function WiresToJson(ws: seq<Wire>): Value {
    Array(seq(|ws|, i requires 0 <= i < |ws| => WireToJson(ws[i])))
  }

  /** What MarshalJSON produces: the string "" for no cookies, otherwise the array of records. */
  function Marshal(cs: seq<Cookie>): Value {
    if |cs| == 0 then String("")
    else WiresToJson(seq(|cs|, i requires 0 <= i < |cs| => ToWire(cs[i])))
  }

  /** Cookies.MarshalJSON: builds the wire records one cookie at a time. */
  method MarshalJSON(cs: seq<Cookie>) returns (j: Value)
    ensures j == Marshal(cs)
  {
    if |cs| == 0 {
      return String("");
    }
    var cookies: seq<Wire> := [];
    for i := 0 to |cs|
      invariant |cookies| == i
      invariant forall k :: 0 <= k < i ==> cookies[k] == ToWire(cs[k])
    {
      var c := cs[i];
      var sameSite := "";
      if c.sameSite == SameSiteStrictMode {
        sameSite := "Strict";
      } else if c.sameSite == SameSiteNoneMode {
        sameSite := "None";
      } else if c.sameSite == SameSiteLaxMode {
        sameSite := "Lax";
      }
      cookies := cookies + [Wire(c.name, c.value, c.path, c.domain, c.expires.Unix(), c.httpOnly, c.secure, sameSite)];
    }
    assert cookies == seq(|cs|, i requires 0 <= i < |cs| => ToWire(cs[i]));
    j := WiresToJson(cookies);
  }

  /** An empty list is the string "", never an array; a non-empty one is an array holding,
      in order, one object per cookie that decodes to that cookie's record. */
  lemma MarshalShape(cs: seq<Cookie>)
    ensures Marshal(cs).String? <==> cs == []
    ensures cs == [] ==> Marshal(cs) == String("")
    ensures cs != [] ==> Marshal(cs).Array? && |Marshal(cs).items| == |cs|
    ensures cs != [] ==> forall i :: 0 <= i < |cs| ==> WireFromJson(Marshal(cs).items[i]) == Success(ToWire(cs[i]))
  {
    if cs != [] {
      forall i | 0 <= i < |cs|
        ensures WireFromJson(Marshal(cs).items[i]) == Success(ToWire(cs[i]))
      {
        WireJsonRoundTrip(ToWire(cs[i]));
      }
    }
  }

  /** json.Unmarshal of array elements into records: the elements in order, failing if any does. */
  function WireItems(items: seq<Value>): (r: Result<seq<Wire>>)
    ensures r.Success? <==> forall i :: 0 <= i < |items| ==> WireFromJson(items[i]).Success?
    ensures r.Success? ==> |r.value| == |items|
    ensures r.Success? ==> forall i :: 0 <= i < |items| ==> r.value[i] == WireFromJson(items[i]).value
    decreases |items|
  {
    if items == [] then Success([])
    else
      var w :- WireFromJson(items[0]);
      var rest :- WireItems(items[1..]);
      assert forall i :: 1 <= i < |items| ==> items[i] == items[1..][i - 1];
      Success([w] + rest)
  }

  /** json.Unmarshal into a []cookie: `null` is an empty list, anything but an array is refused. */
  function WireListFromJson(j: Value): Result<seq<Wire>> {
    match j
    case Null => Success([])
    case Array(items) => WireItems(items)
    case _ => Failure(UnmarshalTypeError("cookies"))
  }

  /** What UnmarshalJSON assigns: one cookie per element, in order; `""` and every other
      non-array but `null` is an error. */
  function Unmarshal(j: Value): (r: Result<seq<Cookie>>)
    ensures r.Success? <==> j.Null? || (j.Array? && forall i :: 0 <= i < |j.items| ==> WireFromJson(j.items[i]).Success?)
    ensures j.Null? ==> r == Success([])
    ensures r.Success? && j.Array? ==> |r.value| == |j.items|
    ensures r.Success? && j.Array? ==>
      forall i :: 0 <= i < |j.items| ==> r.value[i] == FromWire(WireFromJson(j.items[i]).value)
  {
    var ws :- WireListFromJson(j);
    Success(seq(|ws|, i requires 0 <= i < |ws| => FromWire(ws[i])))
  }

  /** A Cookies variable: the receiver that UnmarshalJSON assigns through its pointer. */
  class CookiesVar {
    var cookies: seq<Cookie>

    constructor (cs: seq<Cookie>)
      ensures cookies == cs
    {
      cookies := cs;
    }

    /** Cookies.UnmarshalJSON: on an error the receiver is left as it was. */
    method UnmarshalJSON(b: Value) returns (err: Option<Error>)
      modifies this
      ensures err.None? <==> Unmarshal(b).Success?
      ensures Unmarshal(b).Success? ==> cookies == Unmarshal(b).value
      ensures Unmarshal(b).Failure? ==> err == Some(Unmarshal(b).error) && cookies == old(cookies)
    {
      var parsed := WireListFromJson(b);
      if parsed.Failure? {
        return Some(parsed.error);
      }
      var ws := parsed.value;
      cookies := [];
      for i := 0 to |ws|
        invariant |cookies| == i
        invariant forall k :: 0 <= k < i ==> cookies[k] == FromWire(ws[k])
      {
        var cs := ws[i];
        var t := UnixTime(cs.expiry);
        cookies := cookies + [Cookie(cs.name, cs.value, cs.path, cs.domain, t, cs.secure, cs.httpOnly, 0, NoOtherAttrs)];
      }
      assert cookies == seq(|ws|, i requires 0 <= i < |ws| => FromWire(ws[i]));
      return None;
    }
  }

  // ---- Round trips ----

  /** Decoding what was encoded gives one cookie per cookie, in order, agreeing on every wire
      field; only the same-site mode, the sub-second expiry and the other attributes are lost. */
  lemma RoundTrip(cs: seq<Cookie>)
    requires cs != []
    ensures Unmarshal(Marshal(cs)).Success?
    ensures |Unmarshal(Marshal(cs)).value| == |cs|
    ensures forall i :: 0 <= i < |cs| ==>
      AgreeOnWire(cs[i], Unmarshal(Marshal(cs)).value[i]) && AsDecoded(Unmarshal(Marshal(cs)).value[i])
  {
    MarshalShape(cs);
    var items := Marshal(cs).items;
    forall i | 0 <= i < |cs|
      ensures Unmarshal(Marshal(cs)).value[i] == FromWire(ToWire(cs[i]))
    {
    }
    forall i | 0 <= i < |cs|
      ensures AgreeOnWire(cs[i], FromWire(ToWire(cs[i]))) && AsDecoded(FromWire(ToWire(cs[i])))
    {
      ThroughWire(cs[i]);
    }
  }

  /** Cookies already in decoded form come back unchanged. */
  lemma RoundTripExact(cs: seq<Cookie>)
    requires cs != []
    requires forall i :: 0 <= i < |cs| ==> AsDecoded(cs[i])
    ensures Unmarshal(Marshal(cs)) == Success(cs)
  {
    RoundTrip(cs);
    var ds := Unmarshal(Marshal(cs)).value;
    forall i | 0 <= i < |cs|
      ensures ds[i] == cs[i]
    {
      assert ds[i].expires == cs[i].expires;
    }
    assert ds == cs;
  }

  /** The empty list does not survive: its encoding "" is not an array. */
  lemma EmptyListDoesNotRoundTrip()
    ensures Marshal([]) == String("")
    ensures Unmarshal(Marshal([])).Failure?
  {
  }

  /** A record object without "expiry" decodes to the Unix epoch, which is not the zero time. */
  lemma MissingExpiryDecodesToEpoch(ms: seq<Member>)
    requires forall m | m in ms :: m.key != "expiry"
    requires DecodeMembers(EmptyWire, ms, WireStep).Success?
    ensures Unmarshal(Array([Object(ms)])).Success?
    ensures Unmarshal(Array([Object(ms)])).value[0].expires == UnixTime(0)
    ensures Unmarshal(Array([Object(ms)])).value[0].expires != ZeroTime
  {
    ExpiryKept(EmptyWire, ms);
  }
}
