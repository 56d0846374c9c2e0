/** The weather.gov client (noaa.go): request headers, the acceptance rules
    for a response, and turning the active-alerts feature list into alert
    events. The transport, cookie jar and URL handling belong to Go's HTTP
    package; a response arrives here already read, with its body decoded. */
module Noaa {
  import opened Common
  import opened AlertEvents

  const UserAgent: string := "(bbengfort.github.io, benjamin@bengfort.com)"
  const AcceptMime: string := "application/geo+json"
  const AcceptLanguage: string := "en-US,en"
  const RequestContentType: string := "application/json; charset=utf-8"
  const ActiveAlertsPath: string := "/alerts/active"

  // ---------------------------------------------------------------------
  // Header maps, keyed by canonical header name (net/textproto).

  type Header = map<string, seq<string>>

  /** A character allowed in an HTTP token (RFC 7230 tchar). */
  predicate IsTokenChar(c: char)
  {
    ('a' <= c <= 'z') || ('A' <= c <= 'Z') || ('0' <= c <= '9')
    || c == '!' || c == '#' || c == '$' || c == '%' || c == '&' || c == '\'' || c == '*' || c == '+'
    || c == '-' || c == '.' || c == '^' || c == '_' || c == '`' || c == '|' || c == '~'
  }

  predicate IsToken(s: string)
  {
    forall i :: 0 <= i < |s| ==> IsTokenChar(s[i])
  }

  function UpperChar(c: char): (r: char)
    ensures 'a' <= c <= 'z' ==> 'A' <= r <= 'Z' && r as int == c as int - 32
    ensures !('a' <= c <= 'z') ==> r == c
  {
    if 'a' <= c <= 'z' then (c as int - 32) as char else c
  }

  /** The canonical form of `key` when its first character starts a word
      exactly if `upper` holds: a word's first letter upper-cased, every
      other letter lower-cased, and a hyphen starting a new word. */
  function CanonicalFrom(key: string, upper: bool): (r: string)
    ensures |r| == |key|
    ensures forall i :: 0 <= i < |key| ==> LowerChar(r[i]) == LowerChar(key[i])
    decreases |key|
  {
    if key == [] then []
    else [if upper then UpperChar(key[0]) else LowerChar(key[0])] + CanonicalFrom(key[1..], key[0] == '-')
  }

  /** textproto.CanonicalMIMEHeaderKey: the first letter and every letter
      after a hyphen upper-cased, every other letter lower-cased; a key
      that is not a token is left as it is. Canonicalising changes letter
      case only. */
  function CanonicalKey(key: string): (r: string)
    ensures |r| == |key|
    ensures forall i :: 0 <= i < |key| ==> LowerChar(r[i]) == LowerChar(key[i])
  {
    if IsToken(key) then CanonicalFrom(key, true) else key
  }

  /** Canonicalising a canonical word changes nothing. */
  lemma {:induction false} CanonicalFromIdempotent(key: string, upper: bool)
    ensures CanonicalFrom(CanonicalFrom(key, upper), upper) == CanonicalFrom(key, upper)
    decreases |key|
  {
    if key != [] {
      var c := CanonicalFrom(key, upper);
      assert c[1..] == CanonicalFrom(key[1..], key[0] == '-');
      assert c[0] == '-' <==> key[0] == '-';
      CanonicalFromIdempotent(key[1..], key[0] == '-');
    }
  }

  /** A canonical form is still a token. */
  lemma CanonicalFromToken(key: string, upper: bool)
    requires IsToken(key)
    ensures IsToken(CanonicalFrom(key, upper))
  {
    var c := CanonicalFrom(key, upper);
    forall i | 0 <= i < |key|
      ensures IsTokenChar(c[i])
    {
      assert LowerChar(c[i]) == LowerChar(key[i]);
    }
  }

  /** Canonicalising a canonical key changes nothing, so a header stored
      under a canonical key is found again under it. */
  lemma CanonicalKeyIdempotent(key: string)
    ensures CanonicalKey(CanonicalKey(key)) == CanonicalKey(key)
  {
    if IsToken(key) {
      CanonicalFromToken(key, true);
      CanonicalFromIdempotent(key, true);
    }
  }

  /** Header.Values: every value stored for a key, in the order added. */
  function Values(h: Header, key: string): seq<string>
  {
    var k := CanonicalKey(key);
    if k in h then h[k] else []
  }

  /** Header.Get: the first value for a key, or "". */
  function Get(h: Header, key: string): (v: string)
    ensures Values(h, key) == [] ==> v == ""
    ensures Values(h, key) != [] ==> v == Values(h, key)[0]
  {
    var vs := Values(h, key);
    if vs == [] then "" else vs[0]
  }

  /** Header.Add: appends a value under the key's canonical form and
      leaves every other key alone. */
  function Add(h: Header, key: string, value: string): (r: Header)
    ensures Values(r, key) == Values(h, key) + [value]
    ensures r.Keys == h.Keys + {CanonicalKey(key)}
    ensures forall k :: k in h && k != CanonicalKey(key) ==> r[k] == h[k]
  {
    h[CanonicalKey(key) := Values(h, key) + [value]]
  }

  /** Get after Add: the first value added under a key is the one Get
      reports from then on. */
  lemma GetAfterAdd(h: Header, key: string, value: string)
    ensures Get(Add(h, key, value), key) == (if Values(h, key) == [] then value else Get(h, key))
  {
  }

  /** Names that differ in length, or in some letter other than by case,
      have different canonical forms, so they name different headers. */
  lemma DistinctNames(a: string, b: string, i: nat)
    requires |a| != |b| || (i < |a| && i < |b| && LowerChar(a[i]) != LowerChar(b[i]))
    ensures CanonicalKey(a) != CanonicalKey(b)
  {
    if |a| == |b| {
      assert LowerChar(CanonicalKey(a)[i]) != LowerChar(CanonicalKey(b)[i]);
    }
  }

  /** The five header names NewRequest uses name five different headers. */
  lemma FixedNamesDistinct()
    ensures CanonicalKey("User-Agent") != CanonicalKey("Accept")
    ensures CanonicalKey("User-Agent") != CanonicalKey("Accept-Language")
    ensures CanonicalKey("User-Agent") != CanonicalKey("Content-Type")
    ensures CanonicalKey("Accept") != CanonicalKey("Accept-Language")
    ensures CanonicalKey("Accept") != CanonicalKey("Content-Type")
    ensures CanonicalKey("Accept-Language") != CanonicalKey("Content-Type")
    ensures CanonicalKey("X-CSRF-TOKEN") != CanonicalKey("User-Agent")
    ensures CanonicalKey("X-CSRF-TOKEN") != CanonicalKey("Accept")
    ensures CanonicalKey("X-CSRF-TOKEN") != CanonicalKey("Accept-Language")
    ensures CanonicalKey("X-CSRF-TOKEN") != CanonicalKey("Content-Type")
  {
    DistinctNames("User-Agent", "Accept", 0);
    DistinctNames("User-Agent", "Accept-Language", 0);
    DistinctNames("User-Agent", "Content-Type", 0);
    DistinctNames("Accept", "Accept-Language", 0);
    DistinctNames("Accept", "Content-Type", 0);
    DistinctNames("Accept-Language", "Content-Type", 0);
    DistinctNames("Content-Type", "X-CSRF-TOKEN", 0);
    DistinctNames("User-Agent", "X-CSRF-TOKEN", 0);
    DistinctNames("Accept", "X-CSRF-TOKEN", 0);
    DistinctNames("Accept-Language", "X-CSRF-TOKEN", 0);
  }

  /** The header an X-CSRF-TOKEN value is stored under. */
  const CsrfHeader: string := CanonicalKey("X-CSRF-TOKEN")

  // ---------------------------------------------------------------------
  // NewRequest

  datatype Cookie = Cookie(name: string, value: string)

  datatype Request = Request(verb: string, path: string, header: Header, body: Option<Bytes>)

  /** The values of the cookies called `name`, in the jar's order. */
  function CookieValues(cookies: seq<Cookie>, name: string): seq<string>
  {
    if cookies == [] then []
    else
      var last := cookies[|cookies| - 1];
      CookieValues(cookies[..|cookies| - 1], name) + (if last.name == name then [last.value] else [])
  }

  /** The values of the cookies named csrf_token, in the jar's order. */
  function CsrfTokens(cookies: seq<Cookie>): seq<string>
  {
    CookieValues(cookies, "csrf_token")
  }

  /** http.NewRequestWithContext reads an empty method as GET. */
  function EffectiveVerb(verb: string): string
  {
    if verb == "" then "GET" else verb
  }

  /** NewRequest: a request for `path`. `body` is the outcome of encoding
      the request data (None when there is none); `jar` holds the cookies
      the client's jar has for the URL (None when there is no jar). Every
      request carries the User-Agent, Accept and Accept-Language headers;
      Content-Type only when there is a body; one X-CSRF-TOKEN per
      csrf_token cookie. */
  method NewRequest(verb: string, path: string, body: Option<Result<Bytes>>, jar: Option<seq<Cookie>>)
    returns (r: Result<Request>)
    ensures body.Some? && body.value.Failure? ==> r == Failure(SerializeFailed(body.value.error))
    ensures (body.None? || body.value.Success?) && !IsToken(EffectiveVerb(verb)) ==>
      r == Failure(CreateRequestFailed(verb))
    ensures r.Success? <==> (body.None? || body.value.Success?) && IsToken(EffectiveVerb(verb))
    ensures r.Success? ==>
      var h := r.value.header;
      && r.value.verb == EffectiveVerb(verb) && r.value.path == path
      && r.value.body == (if body.Some? then Some(body.value.value) else None)
      && Values(h, "User-Agent") == [UserAgent]
      && Values(h, "Accept") == [AcceptMime]
      && Values(h, "Accept-Language") == [AcceptLanguage]
      && Values(h, "Content-Type") == (if body.Some? then [RequestContentType] else [])
      && Values(h, "X-CSRF-TOKEN") == (if jar.Some? then CsrfTokens(jar.value) else [])
      && h.Keys <= {CanonicalKey("User-Agent"), CanonicalKey("Accept"), CanonicalKey("Accept-Language"),
                    CanonicalKey("Content-Type"), CsrfHeader}
  {
    var payload: Option<Bytes> := None;
    if body.Some? {
      if body.value.Failure? {
        return Failure(SerializeFailed(body.value.error));
      }
      payload := Some(body.value.value);
    }
    var effective := EffectiveVerb(verb);
    if !IsToken(effective) {
      return Failure(CreateRequestFailed(verb));
    }
    var h := FixedHeaders();
    if payload.Some? {
      FixedNamesDistinct();
      h := Add(h, "Content-Type", RequestContentType);
    }
    if jar.Some? {
      h := AddCsrfTokens(h, jar.value);
    }
    r := Success(Request(effective, path, h, payload));
  }

  /** The three headers NewRequest adds to every request. */
  method FixedHeaders() returns (h: Header)
    ensures Values(h, "User-Agent") == [UserAgent]
    ensures Values(h, "Accept") == [AcceptMime]
    ensures Values(h, "Accept-Language") == [AcceptLanguage]
    ensures Values(h, "Content-Type") == [] && Values(h, "X-CSRF-TOKEN") == []
    ensures h.Keys == {CanonicalKey("User-Agent"), CanonicalKey("Accept"), CanonicalKey("Accept-Language")}
  {
    FixedNamesDistinct();
    h := AddThree("User-Agent", UserAgent, "Accept", AcceptMime, "Accept-Language", AcceptLanguage);
    NotAdded(h, "Content-Type", "User-Agent", "Accept", "Accept-Language");
    NotAdded(h, "X-CSRF-TOKEN", "User-Agent", "Accept", "Accept-Language");
  }

  /** A name whose canonical form differs from those of the three names a
      header holds has no values in it. */
  lemma NotAdded(h: Header, key: string, a: string, b: string, c: string)
    requires h.Keys == {CanonicalKey(a), CanonicalKey(b), CanonicalKey(c)}
    requires CanonicalKey(key) != CanonicalKey(a) && CanonicalKey(key) != CanonicalKey(b)
    requires CanonicalKey(key) != CanonicalKey(c)
    ensures Values(h, key) == []
  {
  }

  /** Three Header.Add calls on an empty header, under names that name
      different headers. */
  method AddThree(a: string, va: string, b: string, vb: string, c: string, vc: string) returns (h: Header)
    requires CanonicalKey(a) != CanonicalKey(b) && CanonicalKey(a) != CanonicalKey(c)
    requires CanonicalKey(b) != CanonicalKey(c)
    ensures Values(h, a) == [va] && Values(h, b) == [vb] && Values(h, c) == [vc]
    ensures h.Keys == {CanonicalKey(a), CanonicalKey(b), CanonicalKey(c)}
  {
    h := map[];
    h := Add(h, a, va);
    h := Add(h, b, vb);
    h := Add(h, c, vc);
  }

  /** Whether two headers hold the same values for the four fixed names. */
  predicate SameFixedHeaders(h: Header, h0: Header)
  {
    && Values(h, "User-Agent") == Values(h0, "User-Agent")
    && Values(h, "Accept") == Values(h0, "Accept")
    && Values(h, "Accept-Language") == Values(h0, "Accept-Language")
    && Values(h, "Content-Type") == Values(h0, "Content-Type")
  }

  /** The cookie loop of NewRequest: one X-CSRF-TOKEN value per cookie
      named csrf_token, in the jar's order; no other header changes. */
  method AddCsrfTokens(h0: Header, cookies: seq<Cookie>) returns (h: Header)
    ensures Values(h, "X-CSRF-TOKEN") == Values(h0, "X-CSRF-TOKEN") + CsrfTokens(cookies)
    ensures h.Keys <= h0.Keys + {CsrfHeader}
    ensures SameFixedHeaders(h, h0)
  {
    FixedNamesDistinct();
    h := AddCookieValues(h0, "X-CSRF-TOKEN", "csrf_token", cookies);
    Untouched(h, h0, "User-Agent", "X-CSRF-TOKEN");
    Untouched(h, h0, "Accept", "X-CSRF-TOKEN");
    Untouched(h, h0, "Accept-Language", "X-CSRF-TOKEN");
    Untouched(h, h0, "Content-Type", "X-CSRF-TOKEN");
  }

  /** Adds the value of every cookie called `name` under `key`, in the
      jar's order; every other header keeps its values. */
  method AddCookieValues(h0: Header, key: string, name: string, cookies: seq<Cookie>) returns (h: Header)
    ensures Values(h, key) == Values(h0, key) + CookieValues(cookies, name)
    ensures h.Keys <= h0.Keys + {CanonicalKey(key)}
    ensures forall k :: k in h0 && k != CanonicalKey(key) ==> k in h && h[k] == h0[k]
  {
    h := h0;
    for i := 0 to |cookies|
      invariant h.Keys <= h0.Keys + {CanonicalKey(key)}
      invariant forall k :: k in h0 && k != CanonicalKey(key) ==> k in h && h[k] == h0[k]
      invariant Values(h, key) == Values(h0, key) + CookieValues(cookies[..i], name)
    {
      assert cookies[..i + 1][..i] == cookies[..i];
      if cookies[i].name == name {
        h := Add(h, key, cookies[i].value);
      }
    }
    assert cookies[..|cookies|] == cookies;
  }

  /** A header whose name is not canonically `changed` keeps its values
      when only `changed` may have been added to. */
  lemma Untouched(h: Header, h0: Header, key: string, changed: string)
    requires h.Keys <= h0.Keys + {CanonicalKey(changed)}
    requires forall k :: k in h0 && k != CanonicalKey(changed) ==> k in h && h[k] == h0[k]
    requires CanonicalKey(key) != CanonicalKey(changed)
    ensures Values(h, key) == Values(h0, key)
  {
  }

  // ---------------------------------------------------------------------
  // Do

  /** A response as the transport delivers it; `body` is the outcome of
      decoding its JSON body, should it be read. */
  datatype Response = Response(statusCode: int, status: string, header: Header, body: Decoding)

  /** What Do returns, together with what it left in the map it decodes
      into (which starts empty). */
  datatype DoResult = DoResult(rep: Option<Response>, err: Option<Error>, data: map<string, Json>)

  predicate Is2xx(code: int)
  {
    200 <= code < 300
  }

  /** Whether Do reads the body: only when asked to and only for a 2xx
      status other than 204 No Content. */
  predicate ReadsBody(rep: Response, wantData: bool)
  {
    wantData && Is2xx(rep.statusCode) && rep.statusCode != 204
  }

  /** Do, for a decode target of type map[string]interface{} (`wantData`
      says it is non-nil). The status is checked first when `checkStatus`
      is set; the body is decoded only from an exact application/geo+json
      content type. */
  function Do(sent: Result<Response>, wantData: bool, checkStatus: bool): (r: DoResult)
    ensures sent.Failure? ==> r == DoResult(None, Some(RequestFailed(sent.error)), map[])
    ensures sent.Success? && checkStatus && !Is2xx(sent.value.statusCode) ==>
      r == DoResult(Some(sent.value), Some(StatusError(sent.value.statusCode, sent.value.status)), map[])
    ensures r.err.None? <==>
      && sent.Success?
      && (checkStatus ==> Is2xx(sent.value.statusCode))
      && (ReadsBody(sent.value, wantData) ==>
            Get(sent.value.header, "Content-Type") == AcceptMime && DecodeInto(sent.value.body).1.None?)
    ensures r.err.None? ==> r.rep == Some(sent.value)
    ensures r.err.None? && !ReadsBody(sent.value, wantData) ==> r.data == map[]
    ensures r.err.None? && ReadsBody(sent.value, wantData) ==>
      r.data == (if sent.value.body.value.Obj? then sent.value.body.value.fields else map[])
    ensures sent.Success? && (checkStatus ==> Is2xx(sent.value.statusCode)) && ReadsBody(sent.value, wantData)
            && Get(sent.value.header, "Content-Type") != AcceptMime ==>
      r == DoResult(Some(sent.value), Some(UnexpectedContentType(Get(sent.value.header, "Content-Type"))), map[])
    ensures sent.Success? && (checkStatus ==> Is2xx(sent.value.statusCode)) && ReadsBody(sent.value, wantData)
            && Get(sent.value.header, "Content-Type") == AcceptMime && DecodeInto(sent.value.body).1.Some? ==>
      r == DoResult(None, Some(DeserializeFailed(DecodeInto(sent.value.body).1.value)),
                    if sent.value.body.Decoded? && sent.value.body.value.Obj? then sent.value.body.value.fields else map[])
  {
    match sent
    case Failure(e) => DoResult(None, Some(RequestFailed(e)), map[])
    case Success(rep) =>
      if checkStatus && !Is2xx(rep.statusCode) then
        DoResult(Some(rep), Some(StatusError(rep.statusCode, rep.status)), map[])
      else if ReadsBody(rep, wantData) then
        var ct := Get(rep.header, "Content-Type");
        if ct != AcceptMime then DoResult(Some(rep), Some(UnexpectedContentType(ct)), map[])
        else
          var (decoded, err) := DecodeInto(rep.body);
          var data := if decoded.Some? then decoded.value else map[];
          if err.Some? then DoResult(None, Some(DeserializeFailed(err.value)), data)
          else DoResult(Some(rep), None, data)
      else DoResult(Some(rep), None, map[])
  }

  // ---------------------------------------------------------------------
  // Alerts

  /** The `features` list of a decoded active-alerts response, if it has
      one. */
  function FeatureList(data: map<string, Json>): Option<seq<Json>>
  {
    if "features" in data && data["features"].Arr? then Some(data["features"].items) else None
  }

  /** Marshalling every feature, stopping at the first failure. */
  function MarshalAll(features: seq<Json>, marshal: Json -> Result<Bytes>): Result<seq<Bytes>>
  {
    if features == [] then Success([])
    else match MarshalAll(features[..|features| - 1], marshal)
      case Failure(e) => Failure(e)
      case Success(prefix) =>
        match marshal(features[|features| - 1])
        case Failure(e) => Failure(e)
        case Success(b) => Success(prefix + [b])
  }

  /** One payload per feature, in order, when every feature marshals; the
      first failure otherwise. */
  lemma {:induction false} MarshalAllMeaning(features: seq<Json>, marshal: Json -> Result<Bytes>)
    ensures MarshalAll(features, marshal).Success? <==>
      forall i :: 0 <= i < |features| ==> marshal(features[i]).Success?
    ensures MarshalAll(features, marshal).Success? ==>
      var payloads := MarshalAll(features, marshal).value;
      |payloads| == |features| && forall i :: 0 <= i < |features| ==> payloads[i] == marshal(features[i]).value
    ensures MarshalAll(features, marshal).Failure? ==>
      exists i :: 0 <= i < |features| && marshal(features[i]).Failure?
        && MarshalAll(features, marshal).error == marshal(features[i]).error
        && forall j :: 0 <= j < i ==> marshal(features[j]).Success?
  {
    if features != [] {
      var init := features[..|features| - 1];
      MarshalAllMeaning(init, marshal);
      assert forall i :: 0 <= i < |init| ==> features[i] == init[i];
      if MarshalAll(init, marshal).Failure? {
        var i :| 0 <= i < |init| && marshal(init[i]).Failure?
          && MarshalAll(init, marshal).error == marshal(init[i]).error
          && forall j :: 0 <= j < i ==> marshal(init[j]).Success?;
        assert marshal(features[i]).Failure?;
      } else if marshal(features[|features| - 1]).Failure? {
        // the last feature is the first to fail
        assert MarshalAll(features, marshal).error == marshal(features[|features| - 1]).error;
      }
    }
  }

  /** The five response headers every alert of a fetch carries. */
  datatype Provenance = Provenance(
    correlationID: string, requestID: string, serverID: string, lastModified: string, expires: string)

  /** The provenance headers of a response; a missing header reads "". */
  function ProvenanceOf(h: Header): Provenance
  {
    Provenance(Get(h, "X-Correlation-Id"), Get(h, "X-Request-Id"), Get(h, "X-Server-Id"),
               Get(h, "Last-Modified"), Get(h, "Expires"))
  }

  /** Whether an event carries the provenance `p` and the payload `data`,
      and has not been decoded yet. */
  predicate Carries(e: AlertEvent, p: Provenance, data: Bytes)
    reads e
  {
    && e.correlationID == p.correlationID
    && e.requestID == p.requestID
    && e.serverID == p.serverID
    && e.lastModified == p.lastModified
    && e.expires == p.expires
    && e.data == data
    && e.parsed == None
  }

  /** Weather.Alerts: fetches the active alerts and makes one AlertEvent
      per feature, each carrying the response's five provenance headers
      and its feature marshalled to JSON. `jar` is what the cookie jar
      holds for the URL, `sent` what the transport returns for the
      request, and `marshal` is json.Marshal. Any failure returns no
      events at all; a feature that fails to marshal fails the whole call
      with the first such error. */
  method Alerts(jar: Option<seq<Cookie>>, sent: Result<Response>, marshal: Json -> Result<Bytes>)
    returns (events: seq<AlertEvent>, err: Option<Error>)
    ensures err.Some? ==> events == []
    ensures var d := Do(sent, true, true);
      && (d.err.Some? ==> err == d.err)
      && (d.err.None? && FeatureList(d.data).None? ==> err == Some(NoAlertsReturned))
      && (d.err.None? && FeatureList(d.data).Some? ==>
            var features := FeatureList(d.data).value;
            && (err.None? <==> forall i :: 0 <= i < |features| ==> marshal(features[i]).Success?)
            && (err.Some? ==> MarshalAll(features, marshal) == Failure(err.value))
            && (err.None? ==>
                  && |events| == |features|
                  && (forall i :: 0 <= i < |events| ==>
                        fresh(events[i]) && Carries(events[i], ProvenanceOf(d.rep.value.header), marshal(features[i]).value))
                  && forall i, j :: 0 <= i < j < |events| ==> events[i] != events[j]))
  {
    // A GET without a body always makes a request, so the source's error
    // return after NewRequest cannot be taken.
    assert IsToken("GET");
    var req := NewRequest("GET", ActiveAlertsPath, None, jar);
    assert req.Success?;
    var d := Do(sent, true, true);
    if d.err.Some? {
      return [], d.err;
    }
    var features := FeatureList(d.data);
    if features.None? {
      return [], Some(NoAlertsReturned);
    }
    events, err := EventsFrom(ProvenanceOf(d.rep.value.header), features.value, marshal);
  }

  /** The loop of Weather.Alerts: one fresh event per feature, each a
      separate object, carrying
      the provenance `p`, until a feature fails to marshal. */
  method EventsFrom(p: Provenance, features: seq<Json>, marshal: Json -> Result<Bytes>)
    returns (events: seq<AlertEvent>, err: Option<Error>)
    ensures err.Some? ==> events == []
    ensures err.None? <==> forall i :: 0 <= i < |features| ==> marshal(features[i]).Success?
    ensures err.Some? ==> MarshalAll(features, marshal) == Failure(err.value)
    ensures err.None? ==>
      && |events| == |features|
      && (forall i :: 0 <= i < |events| ==> fresh(events[i]) && Carries(events[i], p, marshal(features[i]).value))
      && forall i, j :: 0 <= i < j < |events| ==> events[i] != events[j]
  {
    events := [];
    for i := 0 to |features|
      invariant |events| == i
      invariant forall j :: 0 <= j < i ==> marshal(features[j]).Success?
      invariant forall j :: 0 <= j < i ==>
        fresh(events[j]) && Carries(events[j], p, marshal(features[j]).value)
      invariant forall j, k :: 0 <= j < k < i ==> events[j] != events[k]
    {
      var payload := marshal(features[i]);
      if payload.Failure? {
        FirstMarshalFailure(features, i, marshal);
        return [], Some(payload.error);
      }
      var event := new AlertEvent(p.correlationID, p.requestID, p.serverID, p.lastModified, p.expires, payload.value);
      events := events + [event];
    }
    err := None;
  }

  /** When the features before `i` marshal and feature `i` does not,
      marshalling them all fails with feature `i`'s error. */
  lemma FirstMarshalFailure(features: seq<Json>, i: nat, marshal: Json -> Result<Bytes>)
    requires i < |features| && marshal(features[i]).Failure?
    requires forall j :: 0 <= j < i ==> marshal(features[j]).Success?
    ensures MarshalAll(features, marshal) == Failure(marshal(features[i]).error)
  {
    MarshalAllMeaning(features, marshal);
    var k :| 0 <= k < |features| && marshal(features[k]).Failure?
      && MarshalAll(features, marshal).error == marshal(features[k]).error
      && forall j :: 0 <= j < k ==> marshal(features[j]).Success?;
    assert k == i;
  }

}
