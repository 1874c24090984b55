/**
 * The HTTP handlers of the dashboard's server (handler.go). Each handler is a
 * method over the client oracle of module Kinesis; it returns the response
 * (or the error) and the requests it sent to the client, in order.
 *
 * Routes (main.go): GET /api/list -> ListStreams, DELETE /api/stream ->
 * DeleteStream, POST /api/stream/message -> PublishMessage,
 * GET /api/stream/describe -> DescribeStream, GET /api/stream/messages -> LatestMessages.
 */
module Handler {
  import opened Wrappers
  import opened Api
  import opened Kinesis

  datatype DeleteStreamInput = DeleteStreamInput(streamName: string)
  datatype DescribeStreamInput = DescribeStreamInput(streamName: string)
  datatype LatestMessagesInput = LatestMessagesInput(streamName: string, limit: int)
  datatype PublishMessageInput = PublishMessageInput(streamArn: string, partitionKey: string, data: string)

  /**
   * The handler's errors; a nil request body is `None` in the handlers' inputs.
   * A shard's error carries its id as the message prints it, through `aws.ToString`.
   */
  datatype Error =
    | StreamNameRequired
    | StreamArnAndDataRequired
    | ClientFailure(cause: Cause)
    | MissingShardIterator(shardId: string)
    | ShardIteratorFailed(shardId: string, cause: Cause)
    | GetRecordsFailed(shardId: string, cause: Cause)

  // ---------------------------------------------------------------------------
  // ListStreams

  /** A page after which pagination stops: a failed call, or a page without a next token. */
  predicate Ends(page: Result<Page, Cause>) {
    page.Failure? || page.value.nextToken.None?
  }

  /** The page script stops somewhere. */
  predicate PaginationEnds(pages: seq<Result<Page, Cause>>) {
    exists j :: 0 <= j < |pages| && Ends(pages[j])
  }

  /** The index of the page at which pagination stops. */
  function FirstEnd(pages: seq<Result<Page, Cause>>): (e: nat)
    requires PaginationEnds(pages)
    ensures e < |pages| && Ends(pages[e])
    ensures forall j :: 0 <= j < e ==> !Ends(pages[j])
    decreases |pages|
  {
    if Ends(pages[0]) then 0
    else
      var j :| 0 <= j < |pages| && Ends(pages[j]);
      assert Ends(pages[1..][j - 1]);
      1 + FirstEnd(pages[1..])
  }

  function NamesOf(page: Result<Page, Cause>): seq<string> {
    if page.Success? then page.value.streamNames else []
  }

  /** The stream names of `pages`, page after page: a name is there exactly when some page lists it. */
  function AllNames(pages: seq<Result<Page, Cause>>): (r: seq<string>)
    ensures forall x :: x in r <==> exists j :: 0 <= j < |pages| && x in NamesOf(pages[j])
    decreases |pages|
  {
    if |pages| == 0 then []
    else
      var n := |pages| - 1;
      assert forall j :: 0 <= j < n ==> pages[..n][j] == pages[j];
      AllNames(pages[..n]) + NamesOf(pages[n])
  }

  /** Concatenating page scripts concatenates their names, in order. */
  lemma {:induction false} AllNamesAppend(a: seq<Result<Page, Cause>>, b: seq<Result<Page, Cause>>)
    ensures AllNames(a + b) == AllNames(a) + AllNames(b)
    decreases |b|
  {
    if |b| == 0 {
      assert a + b == a;
    } else {
      var b', last := b[..|b| - 1], b[|b| - 1];
      calc {
        AllNames(a + b);
      == { assert (a + b)[..|a + b| - 1] == a + b' && (a + b)[|a + b| - 1] == last; }
        AllNames(a + b') + NamesOf(last);
      == { AllNamesAppend(a, b'); }
        AllNames(a) + AllNames(b') + NamesOf(last);
      }
    }
  }

  /** The names of one page followed by the rest: the first page's names come first. */
  lemma AllNamesCons(p: Result<Page, Cause>, rest: seq<Result<Page, Cause>>)
    ensures AllNames([p] + rest) == NamesOf(p) + AllNames(rest)
  {
    AllNamesAppend([p], rest);
    assert AllNames([p]) == AllNames([]) + NamesOf(p);
  }

  /** The token the `j`th ListStreams request carries: none at first, then the previous page's next token. */
  function TokenBefore(pages: seq<Result<Page, Cause>>, j: nat): Option<string>
    requires j <= |pages|
  {
    if j == 0 || pages[j - 1].Failure? then None else pages[j - 1].value.nextToken
  }

  /** The first `n` ListStreams requests, each with the token the page before it returned. */
  function ListCalls(pages: seq<Result<Page, Cause>>, n: nat): (calls: seq<Call>)
    requires n <= |pages|
    ensures |calls| == n
    ensures forall j :: 0 <= j < n ==> calls[j] == ListStreamsCall(TokenBefore(pages, j))
    decreases n
  {
    if n == 0 then [] else ListCalls(pages, n - 1) + [ListStreamsCall(TokenBefore(pages, n - 1))]
  }

  /**
   * handler.go:53-77. Calls ListStreams until a page has no next token,
   * feeding each token into the next request, and answers every name in page
   * order; the first failing call aborts with that error.
   */
  method ListStreams(c: Client) returns (r: Result<StreamsResponse, Error>, calls: seq<Call>)
    requires PaginationEnds(c.listStreamsPages)
    ensures var pages := c.listStreamsPages; var e := FirstEnd(pages);
      && calls == ListCalls(pages, e + 1)
      && (pages[e].Failure? ==> r == Failure(ClientFailure(pages[e].error)))
      && (pages[e].Success? ==> r == Success(StreamsResponse(AllNames(pages[..e + 1]), |AllNames(pages[..e + 1])|)))
    ensures r.Success? ==> r.value.count == |r.value.streams|
  {
    var pages := c.listStreamsPages;
    ghost var e := FirstEnd(pages);
    var all: seq<string> := [];
    var nextToken: Option<string> := None;
    var i := 0;
    calls := [];
    while true
      invariant 0 <= i <= e
      invariant forall j :: 0 <= j < i ==> !Ends(pages[j])
      invariant calls == ListCalls(pages, i)
      invariant nextToken == TokenBefore(pages, i)
      invariant all == AllNames(pages[..i])
      decreases e - i
    {
      calls := calls + [ListStreamsCall(nextToken)];
      assert calls == ListCalls(pages, i + 1);
      var out := pages[i];
      if out.Failure? {
        assert i == e;
        return Failure(ClientFailure(out.error)), calls;
      }
      assert pages[..i + 1][..i] == pages[..i] && pages[..i + 1][i] == out;
      assert AllNames(pages[..i + 1]) == all + out.value.streamNames;
      all := all + out.value.streamNames;
      if out.value.nextToken.None? {
        assert i == e;
        break;
      }
      nextToken := out.value.nextToken;
      i := i + 1;
    }
    r := Success(StreamsResponse(all, |all|));
  }

  // ---------------------------------------------------------------------------
  // DeleteStream and DescribeStream

  /** handler.go:80-89. Requires a stream name; otherwise one DeleteStream call. */
  method DeleteStream(c: Client, input: Option<DeleteStreamInput>) returns (r: Result<DeleteResponse, Error>, calls: seq<Call>)
    ensures (input.None? || input.value.streamName == "") ==> r == Failure(StreamNameRequired) && calls == []
    ensures input.Some? && input.value.streamName != "" ==>
      var name := input.value.streamName;
      && calls == [DeleteStreamCall(name)]
      && (c.deleteStream(name).Failure? ==> r == Failure(ClientFailure(c.deleteStream(name).error)))
      && (c.deleteStream(name).Success? ==> r == Success(DeleteResponse("deleted", name)))
  {
    if input.None? || input.value.streamName == "" {
      return Failure(StreamNameRequired), [];
    }
    var name := input.value.streamName;
    calls := [DeleteStreamCall(name)];
    var out := c.deleteStream(name);
    if out.Failure? {
      return Failure(ClientFailure(out.error)), calls;
    }
    r := Success(DeleteResponse("deleted", name));
  }

  /** `aws.ToString`: a missing string reads as the empty one. */
  function ToString(s: Option<string>): (r: string)
    ensures s.Some? ==> r == s.value
    ensures s.None? ==> r == ""
  {
    s.GetOr("")
  }

  /** handler.go:92-110. Requires a stream name; otherwise one DescribeStream call, summarised. */
  method DescribeStream(c: Client, input: Option<DescribeStreamInput>) returns (r: Result<DescribeResponse, Error>, calls: seq<Call>)
    ensures (input.None? || input.value.streamName == "") ==> r == Failure(StreamNameRequired) && calls == []
    ensures input.Some? && input.value.streamName != "" ==>
      var name := input.value.streamName;
      var out := c.describeStream(name);
      && calls == [DescribeStreamCall(name)]
      && (out.Failure? ==> r == Failure(ClientFailure(out.error)))
      && (out.Success? ==>
            && r.Success?
            && r.value.streamName == out.value.streamName
            && r.value.streamArn == ToString(out.value.streamArn)
            && r.value.status == out.value.streamStatus
            && r.value.retentionHours == out.value.retentionPeriodHours
            && r.value.shardCount == |out.value.shards|
            && r.value.encryptionType == out.value.encryptionType)
  {
    if input.None? || input.value.streamName == "" {
      return Failure(StreamNameRequired), [];
    }
    var name := input.value.streamName;
    calls := [DescribeStreamCall(name)];
    var desc := c.describeStream(name);
    if desc.Failure? {
      return Failure(ClientFailure(desc.error)), calls;
    }
    var d := desc.value;
    r := Success(DescribeResponse(d.streamName, ToString(d.streamArn), d.streamStatus,
                                  d.retentionPeriodHours, |d.shards|, d.encryptionType));
  }

  // ---------------------------------------------------------------------------
  // LatestMessages

  const DefaultLimit: int := 50

  /** handler.go:118-121: the requested limit when positive, 50 otherwise. */
  function EffectiveLimit(limit: int): (l: int)
    ensures l >= 1
    ensures limit > 0 ==> l == limit
    ensures limit <= 0 ==> l == DefaultLimit
  {
    if limit <= 0 then DefaultLimit else limit
  }

  /**
   * handler.go:130-133: the number of records taken from each shard, the
   * integer quotient of the limit by the shard count, but at least one. With no
   * more shards than the limit it is the largest count whose total fits the limit.
   * (Go's division truncates and Dafny's is Euclidean; they differ only on a
   * negative limit, where both quotients are at most 0 and the floor applies.)
   */
  function Quota(limit: int, shardCount: nat): (q: nat)
    requires shardCount > 0
    ensures q >= 1
    ensures shardCount <= limit ==> q * shardCount <= limit < (q + 1) * shardCount
    ensures limit < shardCount ==> q == 1
  {
    var perShard := limit / shardCount;
    if perShard <= 0 then 1 else perShard
  }

  /** The first `quota` records of the shard's answer, or all of them when there are fewer. */
  function Take(recs: seq<Record>, quota: nat): (r: seq<Record>)
    ensures |r| == if quota < |recs| then quota else |recs|
    ensures r == recs[..|r|]
  {
    if quota < |recs| then recs[..quota] else recs
  }

  /**
   * The response element for a record read from a shard (handler.go:156-162):
   * the shard's id and the record's keys go out as they came, nil included,
   * and the payload as text.
   */
  function ToMessage(shardId: Option<string>, rec: Record): (m: MessageRecord)
    ensures m.shardId == shardId
    ensures m.partitionKey == rec.partitionKey && m.sequenceNumber == rec.sequenceNumber
    ensures m.approximateArrivalTimestamp == rec.approximateArrivalTimestamp && m.dataBase64 == rec.data
  {
    MessageRecord(shardId, rec.partitionKey, rec.sequenceNumber, rec.approximateArrivalTimestamp, rec.data)
  }

  function Tagged(shardId: Option<string>, recs: seq<Record>): (r: seq<MessageRecord>)
    ensures |r| == |recs|
    ensures forall k :: 0 <= k < |recs| ==> r[k] == ToMessage(shardId, recs[k])
  {
    seq(|recs|, k requires 0 <= k < |recs| => ToMessage(shardId, recs[k]))
  }

  /**
   * One shard's two client calls (handler.go:136-150): its iterator, then its
   * records. It succeeds exactly when an iterator came back and its records
   * could be read, with those records; every failure names the shard, and a
   * failed call's error carries the SDK's cause, as `%w` wraps it.
   */
  function FetchShard(c: Client, stream: string, shard: Shard): (r: Result<seq<Record>, Error>)
    ensures var it := c.getShardIterator(stream, shard.shardId);
      r.Success? <==> it.Success? && it.value.Some? && c.getRecords(it.value.value).Success?
    ensures var it := c.getShardIterator(stream, shard.shardId);
      r.Success? ==> r.value == c.getRecords(it.value.value).value
    ensures r.Failure? ==> r.error.ShardIteratorFailed? || r.error.MissingShardIterator? || r.error.GetRecordsFailed?
    ensures r.Failure? ==> r.error.shardId == ToString(shard.shardId)
    ensures var it := c.getShardIterator(stream, shard.shardId);
      it.Failure? ==> r == Failure(ShardIteratorFailed(ToString(shard.shardId), it.error))
    ensures var it := c.getShardIterator(stream, shard.shardId);
      it.Success? && it.value.None? ==> r == Failure(MissingShardIterator(ToString(shard.shardId)))
    ensures var it := c.getShardIterator(stream, shard.shardId);
      it.Success? && it.value.Some? && c.getRecords(it.value.value).Failure? ==>
        r == Failure(GetRecordsFailed(ToString(shard.shardId), c.getRecords(it.value.value).error))
  {
    match c.getShardIterator(stream, shard.shardId)
    case Failure(e) => Failure(ShardIteratorFailed(ToString(shard.shardId), e))
    case Success(None) => Failure(MissingShardIterator(ToString(shard.shardId)))
    case Success(Some(it)) =>
      match c.getRecords(it)
      case Failure(e) => Failure(GetRecordsFailed(ToString(shard.shardId), e))
      case Success(recs) => Success(recs)
  }

  /**
   * The calls `FetchShard` makes: the iterator call from the trim horizon,
   * then the records call only when an iterator came back.
   */
  function ShardCalls(c: Client, stream: string, shard: Shard): (r: seq<Call>)
    ensures 1 <= |r| <= 2 && r[0] == GetShardIteratorCall(stream, shard.shardId, TrimHorizon)
    ensures var it := c.getShardIterator(stream, shard.shardId);
      |r| == 2 <==> it.Success? && it.value.Some?
    ensures |r| == 2 ==> r[1] == GetRecordsCall(c.getShardIterator(stream, shard.shardId).value.value)
  {
    [GetShardIteratorCall(stream, shard.shardId, TrimHorizon)] +
    match c.getShardIterator(stream, shard.shardId)
    case Success(Some(it)) => [GetRecordsCall(it)]
    case _ => []
  }

  /**
   * The records sampled from `shards`, shard after shard; the first failing
   * shard's error otherwise, which is always one of the three errors a shard can give.
   */
  function SampleShards(c: Client, stream: string, shards: seq<Shard>, quota: nat): (r: Result<seq<MessageRecord>, Error>)
    ensures r.Failure? ==> r.error.ShardIteratorFailed? || r.error.MissingShardIterator? || r.error.GetRecordsFailed?
    decreases |shards|
  {
    if |shards| == 0 then Success([])
    else
      var n := |shards| - 1;
      var last := shards[n];
      match SampleShards(c, stream, shards[..n], quota)
      case Failure(e) => Failure(e)
      case Success(init) =>
        match FetchShard(c, stream, last)
        case Failure(e) => Failure(e)
        case Success(recs) => Success(init + Tagged(last.shardId, Take(recs, quota)))
  }

  /**
   * The client calls `SampleShards` makes, up to and including the first
   * failing shard's: at most two per shard.
   */
  function SampleCalls(c: Client, stream: string, shards: seq<Shard>, quota: nat): (r: seq<Call>)
    ensures |r| <= 2 * |shards|
    decreases |shards|
  {
    if |shards| == 0 then []
    else
      var init := shards[..|shards| - 1];
      if SampleShards(c, stream, init, quota).Failure? then SampleCalls(c, stream, init, quota)
      else SampleCalls(c, stream, init, quota) + ShardCalls(c, stream, shards[|shards| - 1])
  }

  /** Once a prefix of the shards fails, the later shards are neither sampled nor called. */
  lemma {:induction false} FailureStopsSampling(c: Client, stream: string, shards: seq<Shard>, quota: nat, k: nat)
    requires k <= |shards|
    requires SampleShards(c, stream, shards[..k], quota).Failure?
    ensures SampleShards(c, stream, shards, quota) == SampleShards(c, stream, shards[..k], quota)
    ensures SampleCalls(c, stream, shards, quota) == SampleCalls(c, stream, shards[..k], quota)
    decreases |shards|
  {
    if k < |shards| {
      var init := shards[..|shards| - 1];
      assert init[..k] == shards[..k];
      FailureStopsSampling(c, stream, init, quota, k);
    } else {
      assert shards[..k] == shards;
    }
  }

  /**
   * The sampler fails exactly when some shard's fetch fails, and then with
   * the error of the first failing shard.
   */
  lemma {:induction false} SampleFailure(c: Client, stream: string, shards: seq<Shard>, quota: nat)
    ensures SampleShards(c, stream, shards, quota).Failure? <==>
            exists i :: 0 <= i < |shards| && FetchShard(c, stream, shards[i]).Failure?
    ensures SampleShards(c, stream, shards, quota).Failure? ==>
            exists i :: 0 <= i < |shards|
              && FetchShard(c, stream, shards[i]) == Failure(SampleShards(c, stream, shards, quota).error)
              && forall j :: 0 <= j < i ==> FetchShard(c, stream, shards[j]).Success?
    decreases |shards|
  {
    if |shards| > 0 {
      var init := shards[..|shards| - 1];
      var n := |shards| - 1;
      SampleFailure(c, stream, init, quota);
      assert forall i :: 0 <= i < n ==> init[i] == shards[i];
      if SampleShards(c, stream, init, quota).Success? && FetchShard(c, stream, shards[n]).Failure? {
        assert forall j :: 0 <= j < n ==> FetchShard(c, stream, shards[j]).Success?;
      }
    }
  }

  /** The sampled records number at most the quota times the shard count. */
  lemma {:induction false} SampleBound(c: Client, stream: string, shards: seq<Shard>, quota: nat)
    ensures SampleShards(c, stream, shards, quota).Success? ==>
            |SampleShards(c, stream, shards, quota).value| <= quota * |shards|
    decreases |shards|
  {
    if |shards| > 0 {
      var n := |shards| - 1;
      SampleBound(c, stream, shards[..n], quota);
      var s := SampleShards(c, stream, shards, quota);
      if s.Success? {
        var init := SampleShards(c, stream, shards[..n], quota).value;
        var recs := FetchShard(c, stream, shards[n]).value;
        assert s.value == init + Tagged(shards[n].shardId, Take(recs, quota));
        assert |s.value| <= quota * n + quota;
        assert quota * n + quota == quota * (n + 1);
      }
    }
  }

  /** With no more shards than the limit, the sample stays within the limit. */
  lemma SampleWithinLimit(c: Client, stream: string, shards: seq<Shard>, limit: int)
    requires 0 < |shards| <= limit
    ensures var s := SampleShards(c, stream, shards, Quota(limit, |shards|));
            s.Success? ==> |s.value| <= limit
  {
    SampleBound(c, stream, shards, Quota(limit, |shards|));
  }

  /** With quota 1 and a record on every shard, every shard gives exactly one record. */
  lemma {:induction false} OnePerShard(c: Client, stream: string, shards: seq<Shard>)
    requires forall i :: 0 <= i < |shards| ==>
               FetchShard(c, stream, shards[i]).Success? && |FetchShard(c, stream, shards[i]).value| > 0
    ensures SampleShards(c, stream, shards, 1).Success?
    ensures |SampleShards(c, stream, shards, 1).value| == |shards|
    decreases |shards|
  {
    if |shards| > 0 {
      var init := shards[..|shards| - 1];
      assert forall i :: 0 <= i < |init| ==> init[i] == shards[i];
      OnePerShard(c, stream, init);
    }
  }

  /**
   * The floor of one record per shard lets the sample exceed the limit: with
   * more shards than the limit and a record on each, every shard still gives one.
   */
  lemma SampleCanExceedLimit(c: Client, stream: string, shards: seq<Shard>, limit: int)
    requires 1 <= limit < |shards|
    requires forall i :: 0 <= i < |shards| ==>
               FetchShard(c, stream, shards[i]).Success? && |FetchShard(c, stream, shards[i]).value| > 0
    ensures var s := SampleShards(c, stream, shards, Quota(limit, |shards|));
            s.Success? && |s.value| == |shards| > limit
  {
    OnePerShard(c, stream, shards);
  }

  /** Each shard's contribution: its first `quota` records, tagged with its id. */
  function Contribution(c: Client, stream: string, shard: Shard, quota: nat): seq<MessageRecord> {
    Tagged(shard.shardId, Take(FetchShard(c, stream, shard).GetOr([]), quota))
  }

  /** Reference definition: the contributions of the shards, first shard first. */
  function Contributions(c: Client, stream: string, shards: seq<Shard>, quota: nat): seq<MessageRecord>
    decreases |shards|
  {
    if |shards| == 0 then [] else Contribution(c, stream, shards[0], quota) + Contributions(c, stream, shards[1..], quota)
  }

  lemma {:induction false} ContributionsSnoc(c: Client, stream: string, shards: seq<Shard>, last: Shard, quota: nat)
    ensures Contributions(c, stream, shards + [last], quota) ==
            Contributions(c, stream, shards, quota) + Contribution(c, stream, last, quota)
    decreases |shards|
  {
    if |shards| == 0 {
      assert [last][1..] == [];
    } else {
      assert (shards + [last])[1..] == shards[1..] + [last];
      ContributionsSnoc(c, stream, shards[1..], last, quota);
    }
  }

  /**
   * A successful sample is the shards' contributions in shard order: each
   * shard gives exactly its first min(quota, |records|) records, in record order.
   */
  lemma {:induction false} SampleInShardOrder(c: Client, stream: string, shards: seq<Shard>, quota: nat)
    ensures var s := SampleShards(c, stream, shards, quota);
            s.Success? ==> s.value == Contributions(c, stream, shards, quota)
    decreases |shards|
  {
    if |shards| > 0 {
      var init := shards[..|shards| - 1];
      var last := shards[|shards| - 1];
      SampleInShardOrder(c, stream, init, quota);
      assert init + [last] == shards;
      ContributionsSnoc(c, stream, init, last, quota);
    }
  }

  /** A successful sample made exactly two calls per shard: its iterator and its records. */
  lemma {:induction false} SampleCallCount(c: Client, stream: string, shards: seq<Shard>, quota: nat)
    ensures SampleShards(c, stream, shards, quota).Success? ==> |SampleCalls(c, stream, shards, quota)| == 2 * |shards|
    decreases |shards|
  {
    if |shards| > 0 {
      SampleCallCount(c, stream, shards[..|shards| - 1], quota);
    }
  }

  /**
   * handler.go:151-164: keeps the shard's records, in order, until `perShard`
   * of them are kept.
   */
  method TakeRecords(shardId: Option<string>, recs: seq<Record>, perShard: nat) returns (taken: seq<MessageRecord>)
    ensures taken == Tagged(shardId, Take(recs, perShard))
    ensures |taken| <= perShard
  {
    taken := [];
    var count := 0;
    var j := 0;
    while j < |recs|
      invariant 0 <= j <= |recs| && count == j && j <= perShard
      invariant taken == Tagged(shardId, recs[..j])
    {
      if count >= perShard {
        break;
      }
      assert Tagged(shardId, recs[..j + 1]) == Tagged(shardId, recs[..j]) + [ToMessage(shardId, recs[j])];
      taken := taken + [ToMessage(shardId, recs[j])];
      count := count + 1;
      j := j + 1;
    }
    assert recs[..j] == Take(recs, perShard);
  }

  /**
   * handler.go:136-164, one shard: asks for an iterator from the trim horizon,
   * reads the records it points to and keeps the first `perShard` of them;
   * a failed or missing iterator, or failed records, is that shard's error.
   */
  method ReadShard(c: Client, name: string, shard: Shard, perShard: nat)
    returns (r: Result<seq<MessageRecord>, Error>, calls: seq<Call>)
    ensures calls == ShardCalls(c, name, shard)
    ensures var fetched := FetchShard(c, name, shard);
      && (fetched.Failure? ==> r == Failure(fetched.error))
      && (fetched.Success? ==> r == Success(Tagged(shard.shardId, Take(fetched.value, perShard))))
  {
    calls := [GetShardIteratorCall(name, shard.shardId, TrimHorizon)];
    var itrOut := c.getShardIterator(name, shard.shardId);
    if itrOut.Failure? || itrOut.value.None? {
      if itrOut.Success? {
        return Failure(MissingShardIterator(ToString(shard.shardId))), calls;
      }
      return Failure(ShardIteratorFailed(ToString(shard.shardId), itrOut.error)), calls;
    }
    var shardIterator := itrOut.value.value;
    calls := calls + [GetRecordsCall(shardIterator)];
    var recOut := c.getRecords(shardIterator);
    if recOut.Failure? {
      return Failure(GetRecordsFailed(ToString(shard.shardId), recOut.error)), calls;
    }
    var taken := TakeRecords(shard.shardId, recOut.value, perShard);
    r := Success(taken);
  }

  /**
   * handler.go:134-165: reads every shard in turn, stopping at the first
   * shard that fails.
   */
  method ReadShards(c: Client, name: string, shards: seq<Shard>, perShard: nat)
    returns (r: Result<seq<MessageRecord>, Error>, calls: seq<Call>)
    ensures r == SampleShards(c, name, shards, perShard)
    ensures calls == SampleCalls(c, name, shards, perShard)
  {
    var records: seq<MessageRecord> := [];
    calls := [];
    var i := 0;
    while i < |shards|
      invariant 0 <= i <= |shards|
      invariant SampleShards(c, name, shards[..i], perShard) == Success(records)
      invariant calls == SampleCalls(c, name, shards[..i], perShard)
    {
      assert shards[..i + 1][..i] == shards[..i] && shards[..i + 1][i] == shards[i];
      var got, shardCalls := ReadShard(c, name, shards[i], perShard);
      calls := calls + shardCalls;
      if got.Failure? {
        FailureStopsSampling(c, name, shards, perShard, i + 1);
        return got, calls;
      }
      records := records + got.value;
      i := i + 1;
    }
    assert shards[..i] == shards;
    r := Success(records);
  }

  /**
   * handler.go:114-171. Requires a stream name; describes the stream; with no
   * shards answers an empty sample; otherwise reads every shard in turn from
   * the trim horizon and keeps its first `Quota` records, aborting on the first
   * shard whose iterator or records cannot be had.
   */
  method LatestMessages(c: Client, input: Option<LatestMessagesInput>) returns (r: Result<MessagesResponse, Error>, calls: seq<Call>)
    ensures (input.None? || input.value.streamName == "") ==> r == Failure(StreamNameRequired) && calls == []
    ensures input.Some? && input.value.streamName != "" ==>
      var name := input.value.streamName;
      var described := c.describeStream(name);
      && |calls| >= 1 && calls[0] == DescribeStreamCall(name)
      && (described.Failure? ==> r == Failure(ClientFailure(described.error)) && calls == [DescribeStreamCall(name)])
      && (described.Success? && described.value.shards == [] ==>
            r == Success(MessagesResponse([], 0, 0)) && calls == [DescribeStreamCall(name)])
      && (described.Success? && described.value.shards != [] ==>
            var shards := described.value.shards;
            var quota := Quota(EffectiveLimit(input.value.limit), |shards|);
            var sample := SampleShards(c, name, shards, quota);
            && calls == [DescribeStreamCall(name)] + SampleCalls(c, name, shards, quota)
            && (sample.Failure? ==> r == Failure(sample.error))
            && (sample.Success? ==> r == Success(MessagesResponse(sample.value, |sample.value|, |shards|))))
    ensures r.Success? ==> r.value.count == |r.value.records|
  {
    if input.None? || input.value.streamName == "" {
      return Failure(StreamNameRequired), [];
    }
    var name := input.value.streamName;
    var limit := input.value.limit;
    if limit <= 0 {
      limit := DefaultLimit;
    }
    calls := [DescribeStreamCall(name)];
    var desc := c.describeStream(name);
    if desc.Failure? {
      return Failure(ClientFailure(desc.error)), calls;
    }
    var shards := desc.value.shards;
    if |shards| == 0 {
      return Success(MessagesResponse([], 0, 0)), calls;
    }
    var perShard := limit / |shards|;
    if perShard <= 0 {
      perShard := 1;
    }
    assert perShard == Quota(EffectiveLimit(input.value.limit), |shards|);
    var sampled, shardCalls := ReadShards(c, name, shards, perShard);
    calls := calls + shardCalls;
    if sampled.Failure? {
      return Failure(sampled.error), calls;
    }
    var records := sampled.value;
    r := Success(MessagesResponse(records, |records|, |shards|));
  }

  // ---------------------------------------------------------------------------
  // PublishMessage

  /**
   * handler.go:174-199. Requires an ARN and data; an empty partition key is
   * replaced by `generatedKey` (the handler's fresh UUID); one PutRecord call;
   * the response reports the partition key that was sent.
   */
  method PublishMessage(c: Client, input: Option<PublishMessageInput>, generatedKey: string)
    returns (r: Result<PublishResponse, Error>, calls: seq<Call>)
    requires generatedKey != ""
    ensures (input.None? || input.value.streamArn == "" || input.value.data == "") ==>
              r == Failure(StreamArnAndDataRequired) && calls == []
    ensures input.Some? && input.value.streamArn != "" && input.value.data != "" ==>
      var given := input.value;
      var key := if given.partitionKey == "" then generatedKey else given.partitionKey;
      var out := c.putRecord(given.streamArn, key, given.data);
      && key != ""
      && calls == [PutRecordCall(given.streamArn, key, given.data)]
      && (out.Failure? ==> r == Failure(ClientFailure(out.error)))
      && (out.Success? ==> r == Success(PublishResponse(out.value.shardId, out.value.sequenceNumber, key)))
    ensures r.Success? ==>
      && r.value.partitionKey != "" && input.Some?
      && calls == [PutRecordCall(input.value.streamArn, r.value.partitionKey, input.value.data)]
  {
    if input.None? || input.value.streamArn == "" || input.value.data == "" {
      return Failure(StreamArnAndDataRequired), [];
    }
    var given := input.value;
    if given.partitionKey == "" {
      given := given.(partitionKey := generatedKey);
    }
    calls := [PutRecordCall(given.streamArn, given.partitionKey, given.data)];
    var out := c.putRecord(given.streamArn, given.partitionKey, given.data);
    if out.Failure? {
      return Failure(ClientFailure(out.error)), calls;
    }
    r := Success(PublishResponse(out.value.shardId, out.value.sequenceNumber, given.partitionKey));
  }
}
