/**
 * The page of one stream (StreamOverview.tsx): its two queries and their
 * fetchers, the delete mutation (no optimistic write; the list is invalidated
 * and the page navigates home on success), and the publish form's mutation
 * (the stream's messages are invalidated and the form reset on success).
 */
module StreamOverview {
  import opened Wrappers
  import opened Api
  import opened Http
  import opened QueryCache
  import StreamsList

  function DescriptionKey(name: string): QueryKey {
    ["stream", name]
  }

  function MessagesKey(name: string): QueryKey {
    ["stream-messages", name]
  }

  /** StreamOverview.tsx:45-49: the stream's metadata, fresh for 30 seconds. */
  function DescriptionQuery(name: string): (q: QueryConfig)
    ensures q.key == ["stream", name] && q.staleTimeMs == 30000 && q.refetchIntervalMs.None?
  {
    QueryConfig(DescriptionKey(name), 30000, None)
  }

  /** StreamOverview.tsx:51-56: the stream's messages, polled every 15 seconds, fresh for 10. */
  function MessagesQuery(name: string): (q: QueryConfig)
    ensures q.key == ["stream-messages", name] && q.staleTimeMs == 10000 && q.refetchIntervalMs == Some(15000)
  {
    QueryConfig(MessagesKey(name), 10000, Some(15000))
  }

  /** StreamOverview.tsx:29-33: `GET /stream/describe?streamName=...`, rejected unless the reply is ok. */
  function FetchDescription(name: string, reply: Reply<DescribeResponse>): (x: Exchange<DescribeResponse>)
    ensures x.request.verb == GET && x.request.path == "/stream/describe" && x.request.body.None?
    ensures QueryParam(x.request.query, "streamName") == Some(name)
    ensures x.result.Success? <==> reply.Reply? && IsOk(reply.status)
    ensures x.result.Success? ==> x.result.value == reply.body
  {
    Exchange(Request(GET, "/stream/describe", [("streamName", name)], None), Expect(reply))
  }

  /** StreamOverview.tsx:35-39: `GET /stream/messages?streamName=...&limit=40`, rejected unless the reply is ok. */
  function FetchMessages(name: string, reply: Reply<MessagesResponse>): (x: Exchange<MessagesResponse>)
    ensures x.request.verb == GET && x.request.path == "/stream/messages" && x.request.body.None?
    ensures QueryParam(x.request.query, "streamName") == Some(name)
    ensures QueryParam(x.request.query, "limit") == Some("40")
    ensures x.result.Success? <==> reply.Reply? && IsOk(reply.status)
    ensures x.result.Success? ==> x.result.value == reply.body
  {
    Exchange(Request(GET, "/stream/messages", [("streamName", name), ("limit", "40")], None), Expect(reply))
  }

  /** The queries of the application, by what they fetch. */
  datatype AppQuery = StreamsQ | DescriptionQ(name: string) | MessagesQ(name: string)

  function KeyOf(q: AppQuery): QueryKey {
    match q
    case StreamsQ => StreamsList.StreamsKey
    case DescriptionQ(name) => DescriptionKey(name)
    case MessagesQ(name) => MessagesKey(name)
  }

  /**
   * The application's keys select each other only when they are the same
   * query, under exact matching and under prefix matching alike: which rule the
   * cache uses does not change what the application's invalidations reach.
   */
  lemma KeysIndependent(rule: MatchRule, filter: AppQuery, q: AppQuery)
    ensures Matches(rule, KeyOf(filter), KeyOf(q)) <==> filter == q
  {
    var f, k := KeyOf(filter), KeyOf(q);
    assert 0 < |f| <= 2 && 0 < |k| <= 2;
    assert f <= k ==> f[0] == k[0] && (|f| == |k| ==> f == k);
  }

  /**
   * Invalidating one application query leaves every other application query's
   * entry exactly as it was.
   */
  lemma InvalidationReachesOnlyItsQuery<D>(entries: map<QueryKey, Entry<D>>, rule: MatchRule, filter: AppQuery, q: AppQuery)
    requires KeyOf(q) in entries && q != filter
    ensures Invalidated(entries, rule, KeyOf(filter))[KeyOf(q)] == entries[KeyOf(q)]
  {
    KeysIndependent(rule, filter, q);
  }

  /** The page's navigation target after a mutation, if any. */
  datatype Navigation = Stay | NavigateTo(path: string)

  /**
   * StreamOverview.tsx:58-76, one `deleteMutation.mutate(name)` run to
   * settlement. There is no optimistic write. On success the stream list is
   * invalidated and the page goes to "/"; on failure nothing in the cache
   * changes and the page stays; the toasts are not modelled.
   */
  method DeleteStream(cache: Cache<QueryData>, name: string, reply: Reply<DeleteResponse>)
    returns (x: Exchange<DeleteResponse>, nav: Navigation)
    modifies cache
    ensures x == StreamsList.DeleteStreamFn(name, reply)
    ensures x.result.Success? ==> cache.entries == Invalidated(old(cache.entries), cache.rule, StreamsList.StreamsKey) && nav == NavigateTo("/")
    ensures x.result.Failure? ==> cache.entries == old(cache.entries) && nav == Stay
    ensures cache.fetching == old(cache.fetching)
    ensures forall q :: q != StreamsQ && KeyOf(q) in cache.entries ==> cache.entries[KeyOf(q)] == old(cache.entries)[KeyOf(q)]
  {
    x := StreamsList.DeleteStreamFn(name, reply);
    nav := Stay;
    if x.result.Success? {
      cache.InvalidateQueries(StreamsList.StreamsKey);
      nav := NavigateTo("/");
      forall q | q != StreamsQ && KeyOf(q) in cache.entries
        ensures cache.entries[KeyOf(q)] == old(cache.entries)[KeyOf(q)]
      {
        InvalidationReachesOnlyItsQuery(old(cache.entries), cache.rule, StreamsQ, q);
      }
    }
  }

  /** The publish form's field values, by field name. */
  class PublishForm {
    var values: map<string, string>

    constructor (values: map<string, string>)
      ensures this.values == values
    {
      this.values := values;
    }

    /** `form.resetFields()`: the form has no initial values, so every field is cleared. */
    method ResetFields()
      modifies this
      ensures values == map[]
    {
      values := map[];
    }
  }

  /**
   * StreamOverview.tsx:148, `{ ...values, streamArn }`: the form's values with
   * the page's ARN written last, so it wins over any `streamArn` among the values.
   */
  function PublishBody(values: map<string, string>, streamArn: string): (body: map<string, string>)
    ensures "streamArn" in body && body["streamArn"] == streamArn
    ensures forall f :: f != "streamArn" ==> (f in body <==> f in values)
    ensures forall f :: f != "streamArn" && f in values ==> body[f] == values[f]
  {
    values + map["streamArn" := streamArn]
  }

  /** StreamOverview.tsx:144-152: `POST /stream/message`, rejected unless the reply is ok. */
  function PublishFn(values: map<string, string>, streamArn: string, reply: Reply<PublishResponse>): (x: Exchange<PublishResponse>)
    ensures x.request.verb == POST && x.request.path == "/stream/message"
    ensures x.request.body == Some(PublishBody(values, streamArn))
    ensures x.result.Success? <==> reply.Reply? && IsOk(reply.status)
  {
    Exchange(Request(POST, "/stream/message", [], Some(PublishBody(values, streamArn))), Expect(reply))
  }

  /**
   * StreamOverview.tsx:139-162, the publish form submitted with its current
   * values and run to settlement. On success the form is reset and only the
   * stream's messages are invalidated; on failure neither the cache nor the
   * form changes; the notifications are not modelled.
   */
  method Publish(cache: Cache<QueryData>, form: PublishForm, streamName: string, streamArn: string, reply: Reply<PublishResponse>)
    returns (x: Exchange<PublishResponse>)
    modifies cache, form
    ensures x == PublishFn(old(form.values), streamArn, reply)
    ensures x.result.Success? ==> cache.entries == Invalidated(old(cache.entries), cache.rule, MessagesKey(streamName)) && form.values == map[]
    ensures x.result.Failure? ==> cache.entries == old(cache.entries) && form.values == old(form.values)
    ensures cache.fetching == old(cache.fetching)
    ensures forall q :: q != MessagesQ(streamName) && KeyOf(q) in cache.entries ==> cache.entries[KeyOf(q)] == old(cache.entries)[KeyOf(q)]
  {
    x := PublishFn(form.values, streamArn, reply);
    if x.result.Success? {
      form.ResetFields();
      cache.InvalidateQueries(MessagesKey(streamName));
      forall q | q != MessagesQ(streamName) && KeyOf(q) in cache.entries
        ensures cache.entries[KeyOf(q)] == old(cache.entries)[KeyOf(q)]
      {
        InvalidationReachesOnlyItsQuery(old(cache.entries), cache.rule, MessagesQ(streamName), q);
      }
    }
  }
}
