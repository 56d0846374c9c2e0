/** Values shared by every part of the model: bytes, decoded JSON, the errors
    the package produces or passes through, and the Option/Result wrappers. */
module Common {

  /** One octet of an encoded payload (Go's `byte`). */
  newtype byte = b: int | 0 <= b < 256

  type Bytes = seq<byte>

  /** A decoded JSON value, as encoding/json produces it for an `interface{}`
      target: objects become maps, arrays become lists. Numbers are kept as
      integers; a number that does not fit a float64 is not stored but
      reported, as `Decoding.late` describes. */
  datatype Json =
    | Null
    | Bool(b: bool)
    | Num(n: int)
    | Str(s: string)
    | Arr(items: seq<Json>)
    | Obj(fields: map<string, Json>)

  /** Every error value the package creates, plus the opaque errors that its
      collaborators (the SDK, the HTTP transport, encoding/json) hand back. */
  datatype Error =
    | External(code: nat)                 // an error from code outside the model
    | ErrNoRows                           // ensign.ErrNoRows: the query cursor is exhausted
    | ErrNoProperties                     // the alert has no "properties" object
    | ErrNoHeadline                       // the properties have no "headline" string
    | JsonTypeMismatch                    // json.UnmarshalTypeError for a map target
    | UnknownLogLevel(value: string)      // `unknown log level %q`
    | TopicDoesNotExist(topic: string)    // `topic %q does not exist`
    | TopicAlreadyExists(topic: string)   // the platform refuses a second CreateTopic
    | TopicIdUnknown(topic: string)       // the platform has no ID for the topic
    | NoAlertsReturned                    // `no alerts returned`
    | RequestFailed(cause: Error)         // `could not execute request: %s`
    | StatusError(statusCode: int, status: string) // `[%d] %s`
    | UnexpectedContentType(contentType: string) // `unexpected content type: %q`
    | DeserializeFailed(cause: Error)     // `could not deserialize response data: %s`
    | SerializeFailed(cause: Error)       // `could not serialize request data as json: %s`
    | CreateRequestFailed(verb: string)   // `could not create request: %s`
    | Joined(errs: seq<Error>)            // errors.Join of the non-nil arguments

  /** What json.Unmarshal (or a json.Decoder's Decode) makes of a payload.
      Malformed JSON is rejected before anything is stored. A well-formed
      payload is decoded into `value`; a member that does not fit its Go
      target (such as a number beyond float64's range) is stored as nil
      and decoding carries on, and `late` is the first such error, which
      is returned once decoding completes. */
  datatype Decoding = Malformed(error: Error) | Decoded(value: Json, late: Option<Error>)

  /** Go's `errors.Join(prev, next)` with `next` non-nil: nil arguments are
      dropped, so the result always wraps `next` and, if present, `prev`. */
  function Join(prev: Option<Error>, next: Error): (r: Error)
    ensures r.Joined? && |r.errs| >= 1 && r.errs[|r.errs| - 1] == next
    ensures prev.None? <==> r.errs == [next]
    ensures prev.Some? ==> r.errs == [prev.value, next]
  {
    match prev
    case None => Joined([next])
    case Some(p) => Joined([p, next])
  }

  /** Go's `errors.Is(err, target)` for the package's errors: `err` is
      `target` or, through errors.Join, wraps an error that is. None of the
      modelled errors wraps its cause (each formats it with `%s`), so a
      join is the only way one error holds another. */
  predicate Is(err: Error, target: Error)
    decreases err
  {
    err == target || (err.Joined? && exists i :: 0 <= i < |err.errs| && Is(err.errs[i], target))
  }

  /** The lower-case form of one character, for ASCII letters. */
  function LowerChar(c: char): (r: char)
    ensures 'A' <= c <= 'Z' ==> 'a' <= r <= 'z' && r as int == c as int + 32
    ensures !('A' <= c <= 'Z') ==> r == c
  {
    if 'A' <= c <= 'Z' then (c as int + 32) as char else c
  }

  datatype Option<+T> = None | Some(value: T)

  datatype Result<+T> = Success(value: T) | Failure(error: Error)
}
