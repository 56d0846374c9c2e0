# noaalert, modelled in Dafny

noaalert fetches the active weather alerts from the weather.gov API and
publishes each alert as a JSON event to an Ensign topic. Readers get the
alerts back through an EnSQL query. This project models the package's
sequential logic and proves its properties:

- **Alert events** (`event.dfy`, module `AlertEvents`). `AlertEvent` is a
  class. `Event()` packs the alert into an event envelope. `Parse` is the
  decode-once cache. `Headline` looks up `properties.headline`, with its
  two distinct errors.
- **Configuration** (`config.dfy`, module `Configuration`). Covers:
  - the log-level decoder: lower-case, trim, then one of seven names
  - the SDK option list
  - the `processed` flag protocol of `IsZero`, `Mark`, `Validate` and
    `NewConfig`
- **The query iterator** (`query.dfy`, module `Query`). `AlertIterator`
  is a class over a cursor class that holds the fetch outcomes still to
  come. `Next` and `Release` update its `done`, `err` and `current` fields.
  `Alert()` and `Error()` are reads and change nothing.
- **Topic resolution** (`topic.dfy`, module `Topics`; `noaalert.dfy`,
  module `NoaAlert`). Covers `EnsureTopicExists` and `TopicID`. Both run
  against a value that stands in for the SDK client (`ensign.dfy`, module
  `Ensign`). That value holds the platform's topics, an error to inject
  into each call, and a log of the calls made.
- **The publisher** (`noaalert.dfy`). `Publisher.Alerts` marshals each
  fetched alert and skips the failures. The body of one tick of `Run`
  publishes every payload and counts them.
- **The weather.gov client** (`noaa.dfy`, module `Noaa`). Covers:
  - the header rules of `NewRequest`, with `Header.Add`/`Get`/`Values`
    keyed by canonical MIME header names
  - the status and content-type rules of `Do`
  - the extraction of one `AlertEvent` per feature in `Weather.Alerts`

Shared values live in `common.dfy` (module `Common`): a JSON value type,
bytes, the package's errors, and `Option`/`Result`. `json.Marshal` and
`json.Unmarshal` are abstract. They are passed in as functions
(`Json -> Result<Bytes>`, `Bytes -> Decoding`). A `Decoding` is either
malformed JSON, or a decoded value together with the first error met while
storing a member, such as a number beyond float64's range. What Go does
when it decodes into a `map[string]interface{}` is written out in
`AlertEvents.DecodeInto`:

- an object fills the map, even when one of its members fails to decode
- `null` and malformed JSON leave a nil map
- any other value is a type error

Inputs from outside the package are parameters:

- the HTTP response, with its body already decoded
- the cookies in the jar
- the outcomes of the SDK calls
- the results of `Publish`

## Model

| member | source | states |
|---|---|---|
| Common.Join | query.go:68 | `errors.Join(a.err, err)` drops a nil stored error. The joined error holds exactly the non-nil arguments in order: the old error, when there was one, then the new one. |
| AlertEvents.DecodeInto | event.go:63-67 | Unmarshalling into a nil map yields a map exactly when the payload is a JSON object, with that object's fields, even if a member failed to decode. It succeeds exactly for an object or `null` whose members all decode. Otherwise the error is the syntax error, the member's error, or a type error for any other value. |
| AlertEvents.HeadlineOf | event.go:51-60 | The lookup succeeds exactly when `properties` is an object holding a string `headline`, and returns that string. `ErrNoProperties` is returned exactly when `properties` is missing or not an object (or the map is nil). Otherwise the error is `ErrNoHeadline`. |
| AlertEvents.AlertEvent.Event | event.go:30-44 | The metadata has exactly the five keys correlation_id, request_id, server_id, last_modified and expires. Each key is bound to its field. Data is passed through unchanged, the type is Alert v1.0.0 and the mimetype is application/json. |
| AlertEvents.AlertEvent.Parse | event.go:63-68 | A set cache is left unchanged, no error is returned and nothing is decoded. An unset cache is decoded exactly once, and the cache and error are what Unmarshal leaves. |
| AlertEvents.AlertEvent.Headline | event.go:46-61 | A decode error gives "" and that error. Otherwise the result is the `properties.headline` lookup in the cache: the string, or "" with `ErrNoProperties`/`ErrNoHeadline`. Only the cache (and the decode count) may change; the provenance fields and Data do not. |
| AlertEvents.OnlyNullPayloadLeavesCacheUnset | event.go:64-65 | Among decodes without error, only a `null` payload leaves the cache nil, so it is the only such payload decoded again on a later call. |
| AlertEvents.HeadlineTwice | event.go:46-68 | Two Headline calls on an undecoded alert. A failed decode that still filled the cache is not repeated: the second call reads the headline from that cache. A failed decode that left the cache nil is repeated and fails the same way. |
| Query.AlertIterator.constructor | query.go:22 | A new iterator starts with no error, not done and no current alert. |
| Query.AlertIterator.Next | query.go:32-56 | Once done, Next returns false without consulting the cursor or changing `err` or `current`. `done` never goes back to false. An error that is ErrNoRows or wraps it (`errors.Is`, through `errors.Join`) ends the iteration and leaves `err` unchanged. Any other error is stored. A row gives true and a fresh current alert built from the five metadata keys and Data, with the decode cache unset. |
| Query.AlertIterator.Release | query.go:66-70 | The cursor is closed. A successful close leaves `err` unchanged; a failed one joins the close error onto `err`. |
| Query.Drain | query.go:32-56 | Calling Next until it returns false sets `done`. Next returns true exactly once per event before the cursor's first error. The error left behind is that first error, or the old error when the iteration stopped on ErrNoRows. |
| Query.JoinedNoRowsIsSilent | query.go:38-40 | A joined error holding ErrNoRows at any position ends the iteration without replacing the stored error, as `errors.Is` finds it through the join. |
| Query.OtherErrorIsKept | query.go:38-40 | An error that is not ErrNoRows and joins no error that is replaces the stored error. |
| Query.EventsThenNoRows | query.go:37-43 | Over n events followed by ErrNoRows (or an exhausted cursor), Next returns true exactly n times and no error is stored. |
| Query.EventRoundTrip | query.go:46-53 | Rebuilding an alert from `Event()`'s metadata and data, as Next does, recovers all five provenance fields and Data. |
| Query.TickEventReadBack | noaalert.go:114 | A tick publishes the payload with no metadata, so an alert it published reads back with all five provenance strings empty and only its payload kept. |
| Configuration.LowerKeepsSpace | config.go:96 | Lower-casing a character neither creates nor removes white space, so `TrimSpace` after `ToLower` cuts the same positions it would cut before. |
| Configuration.TrimSpace | config.go:96 | The result neither starts nor ends with white space. It is the part of the input after the leading white space, and only white space follows it. |
| Configuration.LevelNamed | config.go:97-113 | The switch selects a level exactly for the seven names in the level table, and the level it selects is that name's entry. |
| Configuration.DecodeLevel | config.go:95-116 | Decoding succeeds exactly when the lower-cased, trimmed value is one of the seven level names, and it selects that name's level. Any other value keeps the receiver's level and fails with `UnknownLogLevel` of the normalised value. |
| Configuration.LevelDecoder.Decode | config.go:95-116 | Writes through the receiver: the new level and the error are those given by `DecodeLevel` from the old level. |
| Configuration.LevelsAreDistinct | config.go:97-111 | The seven names select seven different levels. |
| Configuration.LevelNamesAreWords | config.go:84-92 | No level name starts or ends with white space. |
| Configuration.NormalisePadded | config.go:96 | Normalising a word padded with white space gives the word in lower case. |
| Configuration.NormaliseWord | config.go:96 | A value that neither starts nor ends with white space normalises to its lower-case form. |
| Configuration.DecodeWord | config.go:95-113 | A word whose lower-case form is a level name decodes, unpadded, to that name's level without error. |
| Configuration.DecodeIgnoresCaseAndSpace | config.go:96-111 | Any spelling of a level name, in any case and padded with white space, selects that name's level. |
| Configuration.DecodeUpperCase | config_test.go:67 | "FATAL" decodes to the fatal level. |
| Configuration.DecodePadded | config_test.go:73 | "   warn   " decodes to the warn level. |
| Configuration.DecodeMixedCase | config_test.go:76 | "iNFo" decodes to the info level. |
| Configuration.DecodeRejectsUnknown | config_test.go:96-97 | "notalevel" is rejected with the error naming "notalevel", and the level is kept. |
| Configuration.EnsignConfig.Options | config.go:61-73 | Credentials always come first. The length is 1 + [endpoint set] + [auth URL set]. The endpoint option is present exactly when the endpoint is set, and comes second. The authenticator option is present exactly when the auth URL is set, and comes last. |
| Configuration.Config.Mark | config.go:47-53 | Validation never fails, so Mark returns no error and a copy that is no longer zero. The copy differs from the receiver only in `processed`. |
| Configuration.NewConfig | config.go:32-39 | A loader error is returned with the configuration still zero. Otherwise the configuration is marked processed and nothing else changes. |
| Configuration.GetLogLevelAfterDecode | config.go:76-78 | After a value decodes into the configuration's level, GetLogLevel reports the level that value names. |
| Topics.EnsureTopicExists | topic.go:12-31 | The existence check comes first. Its error is returned without a creation. An existing topic gives nil without a creation. A missing topic is created exactly once under the given name: a creation error is returned, a success gives nil and discards the new ID. On success the topic exists and no topic was lost. |
| Topics.EnsureTwiceCreatesAtMostOnce | topic.go:16-28 | Two calls in a row create the topic at most once. After a successful first call, the second only checks existence and succeeds. |
| NoaAlert.TopicID | noaalert.go:29-45 | Only the fixed name "noaa-alerts" is queried. An existence-check error is returned with no further call. An existing topic's ID is looked up and CreateTopic is never called; a successful lookup returns the topic's ID. A missing topic is created when `create` is set, with CreateTopic's result returned. A failed lookup returns the lookup's error. Otherwise the result is `TopicDoesNotExist("noaa-alerts")`. |
| NoaAlert.MarshalledAppend | noaalert.go:137-148 | Collecting distributes over concatenation, so payloads keep the alerts' order. |
| NoaAlert.MarshalledLength | noaalert.go:137-148 | There are at most as many payloads as alerts. When every alert marshals, payload i is alert i's JSON. |
| NoaAlert.CollectAlerts | noaalert.go:126-149 | A failed fetch gives nothing. Otherwise the result is the marshalled alerts in order, with those that fail to marshal skipped. |
| NoaAlert.Tick | noaalert.go:111-117 | Every collected payload is published, in order, to the topic ID, with mimetype application/json and nothing else set. The count equals the number of payloads, whatever Publish returns. |
| Noaa.CanonicalKey | noaa.go:135-148 | `Header.Add` stores a value under the canonical form of its key. Canonicalising keeps the key's length and changes letter case only. |
| Noaa.CanonicalFromIdempotent | noaa.go:135-148 | Canonicalising an already canonical run of words changes nothing. |
| Noaa.CanonicalKeyIdempotent | noaa.go:135-148 | Canonicalising a header name twice is the same as once. |
| Noaa.DistinctNames | noaa.go:135-148 | Two names of different lengths, or with a position whose letters differ other than by case, are stored under different canonical keys. |
| Noaa.FixedNamesDistinct | noaa.go:135-148 | User-Agent, Accept, Accept-Language, Content-Type and X-CSRF-TOKEN name five different headers. |
| Noaa.Add | noaa.go:135 | `Header.Add` appends the value to the key's values and adds only the key's canonical form. Every other key keeps its values. |
| Noaa.GetAfterAdd | noaa.go:174 | After `Add`, `Get` under the same key reports the value just added when the key had none, and the earlier first value otherwise. |
| Noaa.AddThree | noaa.go:135-137 | Three `Add` calls on an empty header under names that differ canonically leave exactly those three keys, each with its single value. |
| Noaa.FixedHeaders | noaa.go:135-137 | The header starts with exactly one User-Agent, one Accept and one Accept-Language value, under those three canonical keys and no other. It has no Content-Type and no X-CSRF-TOKEN value. |
| Noaa.AddCookieValues | noaa.go:146-150 | The cookie loop adds one value under the key per cookie with the given name, in the jar's order, after any values already present. Only the key's canonical form may be added, and every other key keeps its values. |
| Noaa.AddCsrfTokens | noaa.go:143-151 | Adds one X-CSRF-TOKEN value per cookie named csrf_token, in the jar's order, after any already present. The User-Agent, Accept, Accept-Language and Content-Type values do not change. |
| Noaa.NewRequest | noaa.go:111-154 | A body that fails to encode fails with SerializeFailed. A method that is not a token fails with CreateRequestFailed; an empty method means GET. Otherwise the request has one each of User-Agent, Accept and Accept-Language. It has Content-Type exactly when there is a body, and one X-CSRF-TOKEN per csrf_token cookie, in the jar's order. Its keys are among the canonical forms of those five names. |
| Noaa.Do | noaa.go:158-184 | A transport error gives RequestFailed. With status checking on, a non-2xx status gives StatusError. The body is read only when data is wanted and the status is 2xx other than 204. A Content-Type other than exactly application/geo+json gives UnexpectedContentType. A decode error gives DeserializeFailed and no response, with the target map holding whatever the decoder stored. Success happens exactly when none of these occur, and returns the response and the decoded map. |
| Noaa.MarshalAllMeaning | noaa.go:83-94 | Marshalling the features succeeds exactly when every feature marshals, giving one payload per feature in order. Otherwise it fails with the first failing feature's error. |
| Noaa.FirstMarshalFailure | noaa.go:92-94 | When the features before i marshal and feature i does not, the whole list fails with feature i's error. |
| Noaa.EventsFrom | noaa.go:82-99 | One fresh event per feature, in order, each a separate object. Each event carries the same provenance (the five response headers) and its feature's JSON as Data. The first marshal failure returns that error and no events at all. |
| Noaa.Alerts | noaa.go:47-103 | A failing Do returns its error and no events. A missing or non-list `features` gives "no alerts returned". Otherwise there is one fresh event per feature, each a separate object, carrying the response's five provenance headers and the feature's JSON, exactly when every feature marshals. If any feature fails to marshal, the result is the first such error and no events. |

## Left out

- `Publisher.Run`'s ticker, its interrupt goroutine, the select loop on the error channel, and `Shutdown` (noaalert.go:84-110, 122-124) are concurrency. Only the body of one tick is modelled.
- Logging is not modelled: the zerolog setup, the log lines, and the `count` message beyond the count itself. So the model does not reflect that topic.go:25 logs "topic created" on the error path of `CreateTopic` rather than after a success.
- `New`, `Query`'s SQL string, `NewConfig`'s environment loading through confire, and alerts.go are SDK and environment glue. `NewConfig` is modelled from what the loader returns.
- The SDK client is a stand-in value (module `Ensign`): a topic map, per-call error injection, and a call log. Its own behaviour is not part of this model. The same goes for the query cursor, which is a sequence of fetch outcomes. An exhausted cursor answering ErrNoRows is a modelling choice.
- `json.Marshal`/`json.Unmarshal` and the JSON stream decoder are abstract functions. No JSON codec is modelled. `Do` is modelled only for the decode target it is used with, a `map[string]interface{}`.
- URL resolution against the base URL, query parameters, the cookie jar's choice of cookies for a URL, `SetBaseURL` and `NewWeatherAPI` are left to Go's HTTP packages. The jar is modelled only by the cookies it returns.
- Noaa.Do: a failed transport call is modelled as returning no response. Go's client can return a response with some errors, which `Alerts` would then only log.
- Noaa.NewRequest: the method-token check stands in for everything `http.NewRequestWithContext` can reject. URL parse errors are not modelled.
- Noaa.CanonicalKey: it works on characters where Go works on bytes. A key holding a space or any other non-token character is returned unchanged, as `CanonicalMIMEHeaderKey` does. No lemma states the literal canonical spellings, such as X-Csrf-Token for X-CSRF-TOKEN, because proofs about those literal strings are unstable. The model proves instead what canonicalisation preserves: length, letters up to case, idempotence, and distinct names staying distinct.
- Common.LowerChar: only ASCII letters are lower-cased. `strings.ToLower`'s full Unicode case mapping is not modelled.
- Configuration.DecodeLevel: because lower-casing is ASCII-only, a value that Go lower-cases to a level name only through a non-ASCII mapping is rejected. An example is "İNFO", where `strings.ToLower` maps U+0130 to 'i'.
- NoaAlert.TopicID: that a created topic's ID is non-empty comes from the stand-in client, which mints non-empty IDs. It is not something `TopicID` itself guarantees.
- Query.AlertIterator.Next: `errors.Is` is modelled through `errors.Join` only. None of the package's own errors that can reach the cursor wrap a cause with `%w`, and SDK errors other than ErrNoRows are opaque.
- JSON numbers are integers (`Json.Num`). Fractional numbers, such as the GeoJSON coordinates in every feature, are not represented. No modelled rule depends on a number's value.
- Error messages are error constructors, not formatted text (`%q` quoting, `%s`/`%w` wrapping).
- `Config.Validate` enforces nothing, as in the code, so no positive-interval rule is modelled. `Config.Topic` is not consulted by `TopicID`, which always uses "noaa-alerts", as in the code.
- `AlertIterator.Alert` and `AlertIterator.Error` are functions that read `current` and `err`, so they carry no contract of their own.
- A publish failure does not stop a tick's batch, and the count includes every payload. The code ignores `Publish`'s result, and the model follows the code here rather than a stop-on-failure policy.
- A payload that decodes to JSON `null`, is malformed, or is neither an object nor `null` leaves the decode cache nil, so `parse` decodes it again on every call. The cache is decode-once for every other payload that decodes without error (`AlertEvents.OnlyNullPayloadLeavesCacheUnset`). It is also decode-once for an object with a member that fails to decode, whose error is returned only by the first call (`AlertEvents.HeadlineTwice`).
- Go's `int8` conversion of levels is exact here: all seven levels lie between -1 and 5.
