/** The publisher's sequential logic (noaalert.go): resolving the alerts
    topic, collecting one fetch's payloads, and one tick of publishing. */
module NoaAlert {
  import opened Common
  import opened Ensign
  import opened AlertEvents

  /** The one topic the package publishes to and reads from. */
  const Topic: string := "noaa-alerts"

  /** TopicID: the ID of the alerts topic. The name queried is always
      `Topic`. An existing topic is looked up; a missing one is created
      when `create` is set and is otherwise an error. */
  function TopicID(c: Client, create: bool): (r: (Client, Result<string>))
    ensures |r.0.calls| > |c.calls| && r.0.calls[..|c.calls| + 1] == c.calls + [TopicExistsCall(Topic)]
    ensures c.faults.onExists.Some? ==>
      r == (c.(calls := c.calls + [TopicExistsCall(Topic)]), Failure(c.faults.onExists.value))
    ensures c.faults.onExists.None? && Topic in c.topics ==>
      && r.0 == c.(calls := c.calls + [TopicExistsCall(Topic), TopicIdCall(Topic)])
      && (r.1.Success? <==> c.faults.onLookup.None?)
      && (r.1.Success? ==> r.1.value == c.topics[Topic])
      && (r.1.Failure? ==> r.1.error == c.faults.onLookup.value)
    ensures c.faults.onExists.None? && Topic !in c.topics && create ==>
      && r.0.calls == c.calls + [TopicExistsCall(Topic), CreateTopicCall(Topic)]
      && (r.1.Success? <==> c.faults.onCreate.None?)
      && (r.1.Success? ==> r.1.value != "" && r.0.topics == c.topics[Topic := r.1.value])
      && (r.1.Failure? ==> r.1.error == c.faults.onCreate.value && r.0.topics == c.topics)
    ensures c.faults.onExists.None? && Topic !in c.topics && !create ==>
      r == (c.(calls := c.calls + [TopicExistsCall(Topic)]), Failure(TopicDoesNotExist(Topic)))
  {
    var (c1, found) := TopicExists(c, Topic);
    if found.Failure? then (c1, Failure(found.error))
    else if !found.value then
      if create then CreateTopic(c1, Topic)
      else (c1, Failure(TopicDoesNotExist(Topic)))
    else LookupTopicId(c1, Topic)
  }

  /** The payloads that marshalled, in the order of the alerts. */
  function Marshalled(outcomes: seq<Result<Bytes>>): seq<Bytes>
  {
    if outcomes == [] then []
    else
      var last := outcomes[|outcomes| - 1];
      Marshalled(outcomes[..|outcomes| - 1]) + (if last.Success? then [last.value] else [])
  }

  /** Collecting distributes over concatenation, so it keeps the alerts'
      order and drops exactly the failures. */
  lemma {:induction false} MarshalledAppend(a: seq<Result<Bytes>>, b: seq<Result<Bytes>>)
    ensures Marshalled(a + b) == Marshalled(a) + Marshalled(b)
  {
    if b == [] {
      assert a + b == a;
    } else {
      var init := b[..|b| - 1];
      assert (a + b)[..|a + b| - 1] == a + init;
      MarshalledAppend(a, init);
    }
  }

  /** At most one payload per alert; exactly one each when none fails. */
  lemma {:induction false} MarshalledLength(outcomes: seq<Result<Bytes>>)
    ensures |Marshalled(outcomes)| <= |outcomes|
    ensures (forall i :: 0 <= i < |outcomes| ==> outcomes[i].Success?) ==>
      |Marshalled(outcomes)| == |outcomes|
      && forall i :: 0 <= i < |outcomes| ==> Marshalled(outcomes)[i] == outcomes[i].value
  {
    if outcomes != [] {
      MarshalledLength(outcomes[..|outcomes| - 1]);
    }
  }

  /** Publisher.Alerts: the JSON of each fetched alert, skipping those that
      fail to marshal; a failed fetch gives nothing. */
  method CollectAlerts(fetched: Result<seq<Result<Bytes>>>) returns (data: seq<Bytes>)
    ensures fetched.Failure? ==> data == []
    ensures fetched.Success? ==> data == Marshalled(fetched.value)
  {
    if fetched.Failure? {
      return [];
    }
    var alerts := fetched.value;
    data := [];
    var i := 0;
    while i < |alerts|
      invariant 0 <= i <= |alerts|
      invariant data == Marshalled(alerts[..i])
    {
      assert alerts[..i + 1][..i] == alerts[..i];
      if alerts[i].Failure? {
        i := i + 1;
        continue;
      }
      data := data + [alerts[i].value];
      i := i + 1;
    }
    assert alerts[..i] == alerts;
  }

  /** One call to the stream's Publish. */
  datatype Publication = Publication(topicID: string, event: Event)

  /** The envelope a tick publishes a payload in: only the payload and the
      JSON mimetype are set, with no type and no metadata. */
  function PayloadEvent(payload: Bytes): Event
  {
    Envelope(map[], payload, None, ApplicationJSON)
  }

  /** One tick of Publisher.Run: every collected payload is published, in
      order, and the count logged is the number of payloads. What each
      Publish reports (`publishErrs`) is deliberately left unread, as the
      code ignores it, so a failed publish neither stops the batch nor
      lowers the count. */
  method Tick(topicID: string, fetched: Result<seq<Result<Bytes>>>, publishErrs: seq<Option<Error>>)
    returns (sent: seq<Publication>, count: nat)
    ensures var payloads := if fetched.Success? then Marshalled(fetched.value) else [];
      && count == |payloads| && |sent| == |payloads|
      && forall i :: 0 <= i < |sent| ==> sent[i] == Publication(topicID, PayloadEvent(payloads[i]))
  {
    var payloads := CollectAlerts(fetched);
    sent, count := [], 0;
    for i := 0 to |payloads|
      invariant count == i && |sent| == i
      invariant forall j :: 0 <= j < i ==> sent[j] == Publication(topicID, PayloadEvent(payloads[j]))
    {
      sent := sent + [Publication(topicID, PayloadEvent(payloads[i]))];
      count := count + 1;
    }
  }
}
