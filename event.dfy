/** The alert domain object and its transport envelope (event.go). */
module AlertEvents {
  import opened Common

  /** A versioned schema tag carried by every event (api.Type). */
  datatype EventType = EventType(name: string, major: nat, minor: nat, patch: nat)

  /** The SDK's mimetype enumeration; only JSON matters to the package. */
  datatype Mimetype = UnspecifiedMimetype | ApplicationJSON | OtherMimetype(code: nat)

  /** The transport envelope (ensign.Event / api.Event). A nil Type pointer
      is `None`. */
  datatype Event = Envelope(
    metadata: map<string, string>,
    data: Bytes,
    eventType: Option<EventType>,
    mimetype: Mimetype)

  /** The type every alert is published under: "Alert" v1.0.0. */
  const AlertType: EventType := EventType("Alert", 1, 0, 0)

  /** The encoding every alert is published with. */
  const AlertMimetype: Mimetype := ApplicationJSON

  /** Metadata keys under which the five provenance strings travel. */
  const CorrelationKey: string := "correlation_id"
  const RequestKey: string := "request_id"
  const ServerKey: string := "server_id"
  const LastModifiedKey: string := "last_modified"
  const ExpiresKey: string := "expires"

  /** The result of `json.Unmarshal(data, &m)` into a nil
      `map[string]interface{}`: the map it leaves behind (None is the nil
      map) and the error it returns. Malformed JSON and JSON `null` leave
      the map nil; any value that is neither an object nor `null` is a type
      error. An object fills the map even when a member of it fails to
      decode, and that member's error is returned with the filled map. */
  function DecodeInto(decoded: Decoding): (r: (Option<map<string, Json>>, Option<Error>))
    ensures r.0.Some? <==> decoded.Decoded? && decoded.value.Obj?
    ensures r.0.Some? ==> r.0.value == decoded.value.fields
    ensures r.1.None? <==> decoded.Decoded? && (decoded.value.Obj? || decoded.value.Null?) && decoded.late.None?
    ensures decoded.Malformed? ==> r.1 == Some(decoded.error)
    ensures decoded.Decoded? && (decoded.value.Obj? || decoded.value.Null?) ==> r.1 == decoded.late
    ensures decoded.Decoded? && !(decoded.value.Obj? || decoded.value.Null?) ==> r.1 == Some(JsonTypeMismatch)
  {
    match decoded
    case Malformed(e) => (None, Some(e))
    case Decoded(Null, late) => (None, late)
    case Decoded(Obj(m), late) => (Some(m), late)
    case Decoded(_, _) => (None, Some(JsonTypeMismatch))
  }

  /** The lookup of `properties.headline` in an already decoded alert, with
      its two distinct failures. A nil map has no properties. */
  function HeadlineOf(parsed: Option<map<string, Json>>): (r: Result<string>)
    ensures r.Success? <==>
      && parsed.Some?
      && "properties" in parsed.value && parsed.value["properties"].Obj?
      && "headline" in parsed.value["properties"].fields
      && parsed.value["properties"].fields["headline"].Str?
    ensures r.Success? ==> r.value == parsed.value["properties"].fields["headline"].s
    ensures r == Failure(ErrNoProperties) <==>
      !(parsed.Some? && "properties" in parsed.value && parsed.value["properties"].Obj?)
    ensures r.Failure? ==> r.error == ErrNoProperties || r.error == ErrNoHeadline
  {
    if parsed.None? || "properties" !in parsed.value then Failure(ErrNoProperties)
    else match parsed.value["properties"]
      case Obj(props) =>
        if "headline" in props && props["headline"].Str? then Success(props["headline"].s)
        else Failure(ErrNoHeadline)
      case _ => Failure(ErrNoProperties)
  }

  /** One weather alert: five provenance strings copied opaquely from the
      fetch, the raw JSON payload, and a lazily decoded cache of it. */
  class AlertEvent {
    var correlationID: string
    var requestID: string
    var serverID: string
    var lastModified: string
    var expires: string
    var data: Bytes
    /** The decode cache; None is Go's nil map. */
    var parsed: Option<map<string, Json>>
    /** How many times json.Unmarshal has been run on this alert. */
    ghost var decodes: nat

    constructor (correlationID: string, requestID: string, serverID: string,
                 lastModified: string, expires: string, data: Bytes)
      ensures this.correlationID == correlationID && this.requestID == requestID
      ensures this.serverID == serverID && this.lastModified == lastModified
      ensures this.expires == expires && this.data == data
      ensures parsed == None && decodes == 0
    {
      this.correlationID := correlationID;
      this.requestID := requestID;
      this.serverID := serverID;
      this.lastModified := lastModified;
      this.expires := expires;
      this.data := data;
      parsed := None;
      decodes := 0;
    }

    /** The envelope the alert is published in: exactly the five provenance
        keys, the payload untouched, the alert type and JSON encoding. */
    function Event(): (e: Event)
      reads this
      ensures e.metadata.Keys == {CorrelationKey, RequestKey, ServerKey, LastModifiedKey, ExpiresKey}
      ensures e.metadata[CorrelationKey] == correlationID
      ensures e.metadata[RequestKey] == requestID
      ensures e.metadata[ServerKey] == serverID
      ensures e.metadata[LastModifiedKey] == lastModified
      ensures e.metadata[ExpiresKey] == expires
      ensures e.data == data && e.eventType == Some(AlertType) && e.mimetype == AlertMimetype
    {
      var meta := map[];
      var meta := meta[CorrelationKey := correlationID];
      var meta := meta[RequestKey := requestID];
      var meta := meta[ServerKey := serverID];
      var meta := meta[LastModifiedKey := lastModified];
      var meta := meta[ExpiresKey := expires];
      Envelope(meta, data, Some(AlertType), AlertMimetype)
    }

    /** Decodes the payload into the cache unless the cache is already set;
        a set cache is never recomputed. */
    method Parse(unmarshal: Bytes -> Decoding) returns (err: Option<Error>)
      modifies this`parsed, this`decodes
      ensures old(parsed).Some? ==> parsed == old(parsed) && err == None && decodes == old(decodes)
      ensures old(parsed).None? ==> (parsed, err) == DecodeInto(unmarshal(data)) && decodes == old(decodes) + 1
    {
      if parsed.None? {
        var decoded := unmarshal(data);
        parsed, err := DecodeInto(decoded).0, DecodeInto(decoded).1;
        decodes := decodes + 1;
      } else {
        err := None;
      }
    }

    /** The alert's headline. A decode error is returned as it is; otherwise
        the result is the lookup of `properties.headline` in the cache. The
        provenance fields and the payload are never touched. */
    method Headline(unmarshal: Bytes -> Decoding) returns (headline: string, err: Option<Error>)
      modifies this`parsed, this`decodes
      ensures old(parsed).Some? ==> parsed == old(parsed) && decodes == old(decodes)
      ensures old(parsed).None? ==> parsed == DecodeInto(unmarshal(data)).0 && decodes == old(decodes) + 1
      ensures old(parsed).None? && DecodeInto(unmarshal(data)).1.Some? ==>
        headline == "" && err == DecodeInto(unmarshal(data)).1
      ensures old(parsed).Some? || DecodeInto(unmarshal(data)).1.None? ==>
        match HeadlineOf(parsed)
        case Success(h) => headline == h && err == None
        case Failure(e) => headline == "" && err == Some(e)
    {
      err := Parse(unmarshal);
      if err.Some? {
        return "", err;
      }
      match HeadlineOf(parsed)
      case Success(h) => headline, err := h, None;
      case Failure(e) => headline, err := "", Some(e);
    }
  }

  /** A decode that succeeds leaves the cache unset only for a JSON `null`
      payload, so such an alert is decoded again on every later call. */
  lemma OnlyNullPayloadLeavesCacheUnset(decoded: Decoding)
    requires DecodeInto(decoded).1.None?
    ensures DecodeInto(decoded).0.None? <==> decoded == Decoded(Null, None)
  {
  }

  /** Asking an undecoded alert for its headline twice. If the first decode
      fails but still fills the cache (an object with a member that does
      not decode), the second call does not decode again and reads the
      headline from that cache without an error. If the first decode fails
      and leaves the cache nil, the second call decodes again and fails
      the same way. */
  method HeadlineTwice(a: AlertEvent, unmarshal: Bytes -> Decoding)
    returns (h1: string, e1: Option<Error>, h2: string, e2: Option<Error>)
    modifies a`parsed, a`decodes
    ensures var (cache, err) := DecodeInto(unmarshal(a.data));
      old(a.parsed).None? ==>
      && (err.Some? ==> h1 == "" && e1 == err)
      && (err.Some? && cache.Some? ==>
            a.decodes == old(a.decodes) + 1 && a.parsed == cache
            && match HeadlineOf(cache)
               case Success(h) => h2 == h && e2 == None
               case Failure(e) => h2 == "" && e2 == Some(e))
      && (err.Some? && cache.None? ==> a.decodes == old(a.decodes) + 2 && h2 == "" && e2 == err)
  {
    h1, e1 := a.Headline(unmarshal);
    h2, e2 := a.Headline(unmarshal);
  }
}
