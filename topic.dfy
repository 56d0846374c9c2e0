/** Making sure a topic exists before it is used (topic.go). */
module Topics {
  import opened Common
  import opened Ensign

  /** EnsureTopicExists: checks for the topic and creates it when it is
      missing. A failed existence check or a failed creation is returned;
      the ID of a created topic is discarded. */
  function EnsureTopicExists(c: Client, topic: string): (r: (Client, Option<Error>))
    ensures |r.0.calls| >= |c.calls| + 1 && r.0.calls[..|c.calls| + 1] == c.calls + [TopicExistsCall(topic)]
    ensures c.faults.onExists.Some? ==>
      r == (c.(calls := c.calls + [TopicExistsCall(topic)]), c.faults.onExists)
    ensures c.faults.onExists.None? && topic in c.topics ==>
      r == (c.(calls := c.calls + [TopicExistsCall(topic)]), None)
    ensures c.faults.onExists.None? && topic !in c.topics ==>
      && r.0.calls == c.calls + [TopicExistsCall(topic), CreateTopicCall(topic)]
      && (r.1.None? <==> c.faults.onCreate.None?)
      && (r.1.Some? ==> r.1 == c.faults.onCreate && r.0.topics == c.topics)
    ensures r.1.None? ==> topic in r.0.topics && c.topics.Keys <= r.0.topics.Keys
  {
    var (c1, found) := TopicExists(c, topic);
    if found.Failure? then (c1, Some(found.error))
    else if !found.value then
      var (c2, created) := CreateTopic(c1, topic);
      if created.Failure? then (c2, Some(created.error)) else (c2, None)
    else (c1, None)
  }

  /** Calling it twice in a row creates the topic at most once, and a
      second call after a successful first one creates nothing. */
  lemma EnsureTwiceCreatesAtMostOnce(c: Client, topic: string)
    ensures var (c1, e1) := EnsureTopicExists(c, topic);
      var (c2, e2) := EnsureTopicExists(c1, topic);
      && c2.issued <= c.issued + 1
      && (e1.None? ==> c2 == c1.(calls := c1.calls + [TopicExistsCall(topic)]) && e2.None?)
  {
  }
}
