/** The part of the event-stream SDK the package calls to resolve topics,
    as a value: the platform's topics, faults to inject into each call, and
    a log of the calls made. It stands in for the real client, whose
    behaviour is not part of this model. */
module Ensign {
  import opened Common

  /** One call to the platform. */
  datatype Call = TopicExistsCall(topic: string) | CreateTopicCall(topic: string) | TopicIdCall(topic: string)

  /** Errors the platform answers with, whatever the request. */
  datatype Faults = Faults(onExists: Option<Error>, onCreate: Option<Error>, onLookup: Option<Error>)

  datatype Client = Client(
    topics: map<string, string>,   // topic name -> topic ID
    issued: nat,                   // topics created so far, to mint IDs
    faults: Faults,
    calls: seq<Call>)

  /** The ID the platform gives its n-th new topic: never empty, never
      repeated. */
  function MintId(n: nat): (id: string)
    ensures |id| == n + 1 && id[0] == 't'
  {
    if n == 0 then "t" else MintId(n - 1) + "0"
  }

  /** client.TopicExists. */
  function TopicExists(c: Client, topic: string): (r: (Client, Result<bool>))
    ensures r.0 == c.(calls := c.calls + [TopicExistsCall(topic)])
    ensures c.faults.onExists.Some? ==> r.1 == Failure(c.faults.onExists.value)
    ensures c.faults.onExists.None? ==> r.1 == Success(topic in c.topics)
  {
    var c' := c.(calls := c.calls + [TopicExistsCall(topic)]);
    if c.faults.onExists.Some? then (c', Failure(c.faults.onExists.value))
    else (c', Success(topic in c.topics))
  }

  /** client.CreateTopic: a new topic gets a freshly minted ID; a name that
      is taken is refused. */
  function CreateTopic(c: Client, topic: string): (r: (Client, Result<string>))
    ensures r.0.calls == c.calls + [CreateTopicCall(topic)] && r.0.faults == c.faults
    ensures r.1.Success? <==> c.faults.onCreate.None? && topic !in c.topics
    ensures r.1.Success? ==>
      r.1.value != "" && r.0.topics == c.topics[topic := r.1.value] && r.0.issued == c.issued + 1
    ensures r.1.Failure? ==> r.0.topics == c.topics && r.0.issued == c.issued
  {
    var c' := c.(calls := c.calls + [CreateTopicCall(topic)]);
    if c.faults.onCreate.Some? then (c', Failure(c.faults.onCreate.value))
    else if topic in c.topics then (c', Failure(TopicAlreadyExists(topic)))
    else
      var id := MintId(c.issued);
      (c'.(topics := c.topics[topic := id], issued := c.issued + 1), Success(id))
  }

  /** client.TopicID: the ID of a named topic. */
  function LookupTopicId(c: Client, topic: string): (r: (Client, Result<string>))
    ensures r.0 == c.(calls := c.calls + [TopicIdCall(topic)])
    ensures r.1.Success? <==> c.faults.onLookup.None? && topic in c.topics
    ensures r.1.Success? ==> r.1.value == c.topics[topic]
    ensures c.faults.onLookup.Some? ==> r.1 == Failure(c.faults.onLookup.value)
  {
    var c' := c.(calls := c.calls + [TopicIdCall(topic)]);
    if c.faults.onLookup.Some? then (c', Failure(c.faults.onLookup.value))
    else if topic !in c.topics then (c', Failure(TopicIdUnknown(topic)))
    else (c', Success(c.topics[topic]))
  }
}
