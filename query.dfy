/** Reading stored alerts back through an EnSQL cursor (query.go). The
    cursor itself belongs to the SDK; here it is a fixed sequence of fetch
    outcomes and the result its Close will report. */
module Query {
  import opened Common
  import opened AlertEvents
  import NoaAlert

  /** One answer of `cursor.FetchOne()`: an event, or an error (which may be
      ErrNoRows). */
  datatype Fetch = Row(event: Event) | Fail(err: Error)

  /** Go's read of a metadata key: a missing key reads as "". */
  function MetaValue(meta: map<string, string>, key: string): (v: string)
    ensures key in meta ==> v == meta[key]
    ensures key !in meta ==> v == ""
  {
    if key in meta then meta[key] else ""
  }

  /** What FetchOne answers for the outcomes still pending: an exhausted
      cursor answers ErrNoRows. */
  function Head(pending: seq<Fetch>): Fetch
  {
    if pending == [] then Fail(ErrNoRows) else pending[0]
  }

  function Tail(pending: seq<Fetch>): seq<Fetch>
  {
    if pending == [] then [] else pending[1..]
  }

  /** The number of events a cursor yields before its first error. */
  function LeadingRows(pending: seq<Fetch>): (k: nat)
    ensures k <= |pending|
    ensures forall i :: 0 <= i < k ==> pending[i].Row?
    ensures k < |pending| ==> pending[k].Fail?
  {
    if pending == [] || pending[0].Fail? then 0 else 1 + LeadingRows(pending[1..])
  }

  /** The answer that ends the iteration: the first error, or ErrNoRows
      once the events run out. */
  function Stop(pending: seq<Fetch>): (f: Fetch)
    ensures f.Fail?
  {
    var k := LeadingRows(pending);
    if k < |pending| then pending[k] else Fail(ErrNoRows)
  }

  /** The iterator's error after the stopping answer: an error that is
      ErrNoRows, or wraps it, leaves it as it was; any other error replaces
      it. */
  function ErrorAfter(stop: Fetch, err: Option<Error>): Option<Error>
    requires stop.Fail?
  {
    if Is(stop.err, ErrNoRows) then err else Some(stop.err)
  }

  /** A joined error that holds ErrNoRows anywhere among the errors it
      joins still ends the iteration silently. */
  lemma JoinedNoRowsIsSilent(errs: seq<Error>, i: nat, err: Option<Error>)
    requires i < |errs| && errs[i] == ErrNoRows
    ensures ErrorAfter(Fail(Joined(errs)), err) == err
  {
    assert Is(errs[i], ErrNoRows);
  }

  /** An error that neither is nor wraps ErrNoRows is stored, replacing
      any earlier one. */
  lemma OtherErrorIsKept(e: Error, err: Option<Error>)
    requires e != ErrNoRows
    requires e.Joined? ==> forall i :: 0 <= i < |e.errs| ==> !Is(e.errs[i], ErrNoRows)
    ensures ErrorAfter(Fail(e), err) == Some(e)
  {
  }

  class QueryCursor {
    var pending: seq<Fetch>
    const closeResult: Option<Error>
    var closed: bool

    constructor (outcomes: seq<Fetch>, closeResult: Option<Error>)
      ensures pending == outcomes && this.closeResult == closeResult && !closed
    {
      pending := outcomes;
      this.closeResult := closeResult;
      closed := false;
    }

    method FetchOne() returns (f: Fetch)
      modifies this`pending
      ensures f == Head(old(pending)) && pending == Tail(old(pending))
    {
      f := Head(pending);
      pending := Tail(pending);
    }

    method Close() returns (err: Option<Error>)
      modifies this`closed
      ensures closed && err == closeResult
    {
      closed := true;
      err := closeResult;
    }
  }

  class AlertIterator {
    var err: Option<Error>
    var done: bool
    var current: AlertEvent?
    const cursor: QueryCursor

    /** The iterator `Query` hands out: nothing read yet, no error. */
    constructor (cursor: QueryCursor)
      ensures this.cursor == cursor && err == None && !done && current == null
    {
      this.cursor := cursor;
      err := None;
      done := false;
      current := null;
    }

    /** Advances to the next stored alert. Once done, the cursor is not
        consulted again. ErrNoRows, or an error wrapping it, ends the
        iteration silently; any other
        error is kept. An event becomes a fresh AlertEvent rebuilt from the
        five metadata keys and the payload. */
    method Next() returns (more: bool)
      modifies this, cursor`pending
      ensures more <==> !done
      ensures old(done) ==> done
      ensures old(done) ==>
        err == old(err) && current == old(current) && cursor.pending == old(cursor.pending)
      ensures !old(done) ==> cursor.pending == Tail(old(cursor.pending))
      ensures !old(done) && Head(old(cursor.pending)).Fail? ==>
        !more && current == old(current) && err == ErrorAfter(Head(old(cursor.pending)), old(err))
      ensures !old(done) && Head(old(cursor.pending)).Row? ==>
        var ev := Head(old(cursor.pending)).event;
        && more && err == old(err)
        && current != null && fresh(current)
        && current.correlationID == MetaValue(ev.metadata, CorrelationKey)
        && current.requestID == MetaValue(ev.metadata, RequestKey)
        && current.serverID == MetaValue(ev.metadata, ServerKey)
        && current.lastModified == MetaValue(ev.metadata, LastModifiedKey)
        && current.expires == MetaValue(ev.metadata, ExpiresKey)
        && current.data == ev.data && current.parsed == None
    {
      if done {
        return false;
      }
      var f := cursor.FetchOne();
      match f
      case Fail(e) =>
        if !Is(e, ErrNoRows) {
          err := Some(e);
        }
        done := true;
        return false;
      case Row(ev) =>
        current := new AlertEvent(
          MetaValue(ev.metadata, CorrelationKey),
          MetaValue(ev.metadata, RequestKey),
          MetaValue(ev.metadata, ServerKey),
          MetaValue(ev.metadata, LastModifiedKey),
          MetaValue(ev.metadata, ExpiresKey),
          ev.data);
        return true;
    }

    /** The alert read by the last successful Next. */
    function Alert(): AlertEvent?
      reads this
    {
      current
    }

    /** The error that ended the iteration, if any. */
    function Error(): Option<Error>
      reads this
    {
      err
    }

    /** Closes the cursor; a close error is joined onto the stored error. */
    method Release()
      modifies this`err, cursor`closed
      ensures cursor.closed
      ensures cursor.closeResult.None? ==> err == old(err)
      ensures cursor.closeResult.Some? ==> err == Some(Join(old(err), cursor.closeResult.value))
    {
      var closeErr := cursor.Close();
      if closeErr.Some? {
        err := Some(Join(err, closeErr.value));
      }
    }
  }

  /** The iterator protocol as callers run it, `for it.Next() { … }`: Next
      answers true once per event before the first error, then false, and
      the error left behind is the one that stopped it unless that was
      ErrNoRows. */
  method Drain(it: AlertIterator) returns (n: nat)
    modifies it, it.cursor`pending
    ensures it.done
    ensures old(it.done) ==> n == 0 && it.err == old(it.err)
    ensures !old(it.done) ==>
      n == LeadingRows(old(it.cursor.pending))
      && it.err == ErrorAfter(Stop(old(it.cursor.pending)), old(it.err))
  {
    ghost var p0 := it.cursor.pending;
    ghost var k := LeadingRows(p0);
    ghost var wasDone := it.done;
    n := 0;
    var more := it.Next();
    while more
      invariant more <==> !it.done
      invariant n <= k
      invariant wasDone ==> !more && n == 0 && it.err == old(it.err)
      invariant !wasDone && more ==> n < k && it.cursor.pending == p0[n + 1..] && it.err == old(it.err)
      invariant !wasDone && !more ==> n == k && it.err == ErrorAfter(Stop(p0), old(it.err))
      decreases k - n
    {
      n := n + 1;
      more := it.Next();
    }
  }

  /** A cursor that yields the given events and then ErrNoRows (or simply
      runs out) lets Next answer true exactly once per event and leaves no
      error behind. */
  lemma {:induction false} EventsThenNoRows(events: seq<Event>, exhausted: bool)
    ensures var p := seq(|events|, i requires 0 <= i < |events| => Row(events[i]))
                     + (if exhausted then [] else [Fail(ErrNoRows)]);
      LeadingRows(p) == |events| && Stop(p) == Fail(ErrNoRows)
  {
    var p := seq(|events|, i requires 0 <= i < |events| => Row(events[i]))
             + (if exhausted then [] else [Fail(ErrNoRows)]);
    if events != [] {
      var rest := seq(|events[1..]|, i requires 0 <= i < |events[1..]| => Row(events[1..][i]))
                  + (if exhausted then [] else [Fail(ErrNoRows)]);
      EventsThenNoRows(events[1..], exhausted);
      assert p[1..] == rest;
    }
  }

  /** Rebuilding an alert from `Event()`'s envelope, as Next does,
      recovers it: the metadata, read key by key, gives back all five
      provenance strings, and the payload is carried unchanged. */
  lemma EventRoundTrip(a: AlertEvent)
    ensures var e := a.Event();
      && MetaValue(e.metadata, CorrelationKey) == a.correlationID
      && MetaValue(e.metadata, RequestKey) == a.requestID
      && MetaValue(e.metadata, ServerKey) == a.serverID
      && MetaValue(e.metadata, LastModifiedKey) == a.lastModified
      && MetaValue(e.metadata, ExpiresKey) == a.expires
      && e.data == a.data
  {
  }

  /** The publisher's tick does not use `Event()`: it publishes the
      payload with no metadata, so such an alert reads back with all five
      provenance strings empty and only its payload kept. */
  lemma TickEventReadBack(payload: Bytes)
    ensures var e := NoaAlert.PayloadEvent(payload);
      && MetaValue(e.metadata, CorrelationKey) == ""
      && MetaValue(e.metadata, RequestKey) == ""
      && MetaValue(e.metadata, ServerKey) == ""
      && MetaValue(e.metadata, LastModifiedKey) == ""
      && MetaValue(e.metadata, ExpiresKey) == ""
      && e.data == payload
  {
  }
}
