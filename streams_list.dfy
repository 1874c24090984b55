/**
 * The stream list page (StreamsList.tsx): its query, its fetcher, and the
 * delete mutation that removes a stream from the cached list optimistically,
 * rolls the list back when the server refuses, and invalidates the list once
 * the deletion settles; and the "delete all" action built on that mutation.
 */
module StreamsList {
  import opened Wrappers
  import opened Api
  import opened Http
  import opened QueryCache

  const StreamsKey: QueryKey := ["streams"]

  /** StreamsList.tsx:20-24: the list query, fresh for 30 seconds, not polled. */
  function StreamsQuery(): (q: QueryConfig)
    ensures q.key == StreamsKey && q.staleTimeMs == 30000 && q.refetchIntervalMs.None?
  {
    QueryConfig(StreamsKey, 30000, None)
  }

  /** StreamsList.tsx:12-16: `GET /list`, rejected unless the reply is ok. */
  function FetchStreams(reply: Reply<StreamsResponse>): (x: Exchange<StreamsResponse>)
    ensures x.request.verb == GET && x.request.path == "/list" && x.request.body.None?
    ensures x.result.Success? <==> reply.Reply? && IsOk(reply.status)
    ensures x.result.Success? ==> x.result.value == reply.body
  {
    Exchange(Request(GET, "/list", [], None), Expect(reply))
  }

  /** The delete mutation's request: `DELETE /stream` with `{streamName}` as its JSON body. */
  function DeleteStreamRequest(name: string): (r: Request)
    ensures r.verb == DELETE && r.path == "/stream" && r.query == []
    ensures r.body == Some(map["streamName" := name])
  {
    Request(DELETE, "/stream", [], Some(map["streamName" := name]))
  }

  /**
   * StreamsList.tsx:27-35, the delete mutation's function (StreamOverview.tsx:59-67
   * is the same): `DELETE /stream` with the name in the body, rejected unless the reply is ok.
   */
  function DeleteStreamFn(name: string, reply: Reply<DeleteResponse>): (x: Exchange<DeleteResponse>)
    ensures x.request.verb == DELETE && x.request.path == "/stream"
    ensures x.request.body.Some? && x.request.body.value == map["streamName" := name]
    ensures x.result.Success? <==> reply.Reply? && IsOk(reply.status)
    ensures x.result.Success? ==> x.result.value == reply.body
  {
    Exchange(DeleteStreamRequest(name), Expect(reply))
  }

  /**
   * `getQueryData<StreamsResponse>(['streams'])`: the type argument is an unchecked
   * cast; data of another shape under this key reads as absent here.
   */
  function AsStreams(d: Option<QueryData>): (r: Option<StreamsResponse>)
    ensures r.Some? <==> d.Some? && d.value.StreamsData?
    ensures r.Some? ==> d == Some(StreamsData(r.value))
  {
    if d.Some? && d.value.StreamsData? then Some(d.value.streams) else None
  }

  /** `names.filter(s => s !== name)`. */
  function Without(names: seq<string>, name: string): (r: seq<string>)
    ensures |r| <= |names|
    ensures name !in r
    ensures forall s :: s != name ==> multiset(r)[s] == multiset(names)[s]
    decreases |names|
  {
    if |names| == 0 then []
    else
      assert names == [names[0]] + names[1..];
      (if names[0] == name then [] else [names[0]]) + Without(names[1..], name)
  }

  /** Filtering keeps order: the filter of a concatenation is the concatenation of the filters. */
  lemma {:induction false} WithoutAppend(a: seq<string>, b: seq<string>, name: string)
    ensures Without(a + b, name) == Without(a, name) + Without(b, name)
    decreases |a|
  {
    if |a| > 0 {
      var head := if a[0] == name then [] else [a[0]];
      calc {
        Without(a + b, name);
      == { assert (a + b)[0] == a[0] && (a + b)[1..] == a[1..] + b; }
        head + Without(a[1..] + b, name);
      == { WithoutAppend(a[1..], b, name); }
        head + (Without(a[1..], name) + Without(b, name));
      }
    } else {
      assert a + b == b;
    }
  }

  /** Filtering out a name that is not there gives the list back unchanged. */
  lemma {:induction false} WithoutAbsent(names: seq<string>, name: string)
    requires name !in names
    ensures Without(names, name) == names
    decreases |names|
  {
    if |names| > 0 {
      WithoutAbsent(names[1..], name);
    }
  }

  /**
   * StreamsList.tsx:40-43: the optimistic list. Every occurrence of `name` is
   * gone, every other name keeps its number of occurrences, and the count drops by one.
   */
  function OptimisticRemove(prev: StreamsResponse, name: string): (r: StreamsResponse)
    ensures name !in r.streams
    ensures forall s :: s != name ==> multiset(r.streams)[s] == multiset(prev.streams)[s]
    ensures r.count == prev.count - 1
  {
    StreamsResponse(Without(prev.streams, name), prev.count - 1)
  }

  /** The count drops by one even when the name is not in the list. */
  lemma RemovingAbsentNameStillCounts(prev: StreamsResponse, name: string)
    requires name !in prev.streams
    ensures OptimisticRemove(prev, name) == StreamsResponse(prev.streams, prev.count - 1)
  {
    WithoutAbsent(prev.streams, name);
  }

  /** The mutation's context: the list as it was before the optimistic write, if there was one. */
  datatype DeleteContext = DeleteContext(prev: Option<StreamsResponse>)

  /**
   * StreamsList.tsx:36-46. Cancels in-flight list fetches, snapshots the
   * list, and when there is one writes the optimistic list over it.
   */
  method OnMutate(cache: Cache<QueryData>, name: string) returns (ctx: DeleteContext)
    modifies cache
    ensures ctx.prev == AsStreams(old(cache.GetQueryData(StreamsKey)))
    ensures cache.fetching == Cancelled(old(cache.fetching), cache.rule, StreamsKey)
    ensures ctx.prev.Some? ==>
      cache.entries == old(cache.entries)[StreamsKey := Entry(Some(StreamsData(OptimisticRemove(ctx.prev.value, name))), false)]
    ensures ctx.prev.None? ==> cache.entries == old(cache.entries)
  {
    cache.CancelQueries(StreamsKey);
    var prev := AsStreams(cache.GetQueryData(StreamsKey));
    if prev.Some? {
      cache.SetQueryData(StreamsKey, StreamsData(OptimisticRemove(prev.value, name)));
    }
    ctx := DeleteContext(prev);
  }

  /** StreamsList.tsx:47-50. Restores the snapshot, if there is one; the toast is not modelled. */
  method OnError(cache: Cache<QueryData>, ctx: DeleteContext)
    modifies cache
    ensures ctx.prev.Some? ==> cache.entries == old(cache.entries)[StreamsKey := Entry(Some(StreamsData(ctx.prev.value)), false)]
    ensures ctx.prev.None? ==> cache.entries == old(cache.entries)
    ensures cache.fetching == old(cache.fetching)
  {
    if ctx.prev.Some? {
      cache.SetQueryData(StreamsKey, StreamsData(ctx.prev.value));
    }
  }

  /** StreamsList.tsx:52-54. Invalidates the list, whatever the outcome. */
  method OnSettled(cache: Cache<QueryData>)
    modifies cache
    ensures cache.entries == Invalidated(old(cache.entries), cache.rule, StreamsKey)
    ensures cache.fetching == old(cache.fetching)
  {
    cache.InvalidateQueries(StreamsKey);
  }

  /**
   * From `before` to `after`, no key is added or dropped, only the list's data
   * may differ, and the invalidated flags are the old ones plus, when
   * `touched`, those of the entries the list key selects.
   */
  predicate OthersKept(before: map<QueryKey, Entry<QueryData>>, after: map<QueryKey, Entry<QueryData>>, rule: MatchRule, touched: bool) {
    && after.Keys == before.Keys
    && (forall k :: k in after && k != StreamsKey ==> after[k].data == before[k].data)
    && (forall k :: k in after ==> (after[k].stale <==> before[k].stale || (touched && Matches(rule, StreamsKey, k))))
  }

  /**
   * The entries once one deletion of `name` has settled, `ok` saying whether
   * it succeeded: when the list had data, it ends as the optimistic list on
   * success and as the snapshot on failure; then the list key is invalidated.
   */
  function DeleteEffect(entries: map<QueryKey, Entry<QueryData>>, rule: MatchRule, name: string, ok: bool): (r: map<QueryKey, Entry<QueryData>>)
    ensures r.Keys == entries.Keys
    ensures StreamsKey in r ==> r[StreamsKey].stale
  {
    var snap := AsStreams(DataAt(entries, StreamsKey));
    var written :=
      if snap.Some? then entries[StreamsKey := Entry(Some(StreamsData(if ok then OptimisticRemove(snap.value, name) else snap.value)), false)]
      else entries;
    Invalidated(written, rule, StreamsKey)
  }

  /**
   * One deletion changes no entry's data but the list's, flags exactly what the
   * list key selects, and leaves the list optimistic on success (when it had
   * data) and as it was otherwise: success writes nothing else, and failure
   * rolls back to exactly the snapshot.
   */
  lemma DeleteEffectFrame(entries: map<QueryKey, Entry<QueryData>>, rule: MatchRule, name: string, ok: bool)
    ensures OthersKept(entries, DeleteEffect(entries, rule, name, ok), rule, true)
    ensures var snap := AsStreams(DataAt(entries, StreamsKey));
      DataAt(DeleteEffect(entries, rule, name, ok), StreamsKey) ==
        if snap.Some? && ok then Some(StreamsData(OptimisticRemove(snap.value, name))) else DataAt(entries, StreamsKey)
  {
  }

  /**
   * StreamsList.tsx:26-55, one `deleteMutation.mutate(name)` run to settlement
   * with the transport's `reply`: the cache ends as `DeleteEffect` says, and
   * in-flight list fetches are cancelled.
   */
  method Delete(cache: Cache<QueryData>, name: string, reply: Reply<DeleteResponse>) returns (x: Exchange<DeleteResponse>)
    modifies cache
    ensures x == DeleteStreamFn(name, reply)
    ensures cache.entries == DeleteEffect(old(cache.entries), cache.rule, name, x.result.Success?)
    ensures cache.fetching == Cancelled(old(cache.fetching), cache.rule, StreamsKey)
  {
    var ctx := OnMutate(cache, name);
    x := DeleteStreamFn(name, reply);
    if x.result.Failure? {
      OnError(cache, ctx);
      assert ctx.prev.Some? ==> cache.entries == old(cache.entries)[StreamsKey := Entry(Some(StreamsData(ctx.prev.value)), false)];
    }
    OnSettled(cache);
  }

  /** `results.filter(r => r.status === 'rejected').length`. */
  function CountRejected<T, E>(results: seq<Result<T, E>>): (n: nat)
    ensures n <= |results|
    ensures n == 0 <==> forall i :: 0 <= i < |results| ==> results[i].Success?
    decreases |results|
  {
    if |results| == 0 then 0
    else
      var init := results[..|results| - 1];
      assert forall i :: 0 <= i < |init| ==> init[i] == results[i];
      CountRejected(init) + if results[|results| - 1].Failure? then 1 else 0
  }

  /** Every settled outcome is rejected: the count is the number of deletions. */
  lemma {:induction false} AllRejectedCounted<T, E>(results: seq<Result<T, E>>)
    requires forall i :: 0 <= i < |results| ==> results[i].Failure?
    ensures CountRejected(results) == |results|
    decreases |results|
  {
    if |results| > 0 {
      var init := results[..|results| - 1];
      assert forall i :: 0 <= i < |init| ==> init[i] == results[i];
      AllRejectedCounted(init);
    }
  }

  /** The outcomes `Promise.allSettled` reports, one per deletion, in order. */
  function Settle(names: seq<string>, replies: seq<Reply<DeleteResponse>>): (results: seq<Result<DeleteResponse, FetchError>>)
    requires |replies| == |names|
    ensures |results| == |names|
    ensures forall i :: 0 <= i < |names| ==> results[i] == DeleteStreamFn(names[i], replies[i]).result
  {
    seq(|names|, i requires 0 <= i < |names| => DeleteStreamFn(names[i], replies[i]).result)
  }

  /**
   * The list once the optimistic writes for `names` have been made over `s`,
   * one after another: each takes one off the count, whether or not its name was listed.
   */
  function RemoveAll(s: StreamsResponse, names: seq<string>): (r: StreamsResponse)
    ensures r.count == s.count - |names|
    decreases |names|
  {
    if |names| == 0 then s
    else OptimisticRemove(RemoveAll(s, names[..|names| - 1]), names[|names| - 1])
  }

  /** After the optimistic writes for `names`, exactly the names of `s` that are not among them are listed. */
  lemma {:induction false} RemoveAllContents(s: StreamsResponse, names: seq<string>)
    ensures forall x :: x in RemoveAll(s, names).streams <==> x in s.streams && x !in names
    decreases |names|
  {
    if |names| > 0 {
      var n := |names| - 1;
      RemoveAllContents(s, names[..n]);
      var p := RemoveAll(s, names[..n]);
      assert names == names[..n] + [names[n]];
      forall x
        ensures x in RemoveAll(s, names).streams <==> x in s.streams && x !in names
      {
        if x != names[n] {
          assert multiset(OptimisticRemove(p, names[n]).streams)[x] == multiset(p.streams)[x];
        }
      }
    }
  }

  /**
   * The other side of the race: a listed name captured before the last
   * rejected one is gone once everything has settled, even when its own
   * deletion was rejected, since the snapshot restored last already lacked it.
   */
  lemma RollbackKeepsEarlierRemovals(s: StreamsResponse, names: seq<string>, replies: seq<Reply<DeleteResponse>>, order: seq<nat>, i: nat)
    requires |replies| == |names| && IsSettleOrder(order, |names|)
    requires LastRejected(names, replies, order, |order|).Some?
    requires i < LastRejected(names, replies, order, |order|).value
    ensures names[i] !in RemoveAll(s, names[..KeptWrites(names, replies, order, |order|)]).streams
  {
    var k := KeptWrites(names, replies, order, |order|);
    RemoveAllContents(s, names[..k]);
    assert names[..k][i] == names[i];
  }

  /**
   * The order in which the replies to the `n` deletions arrive: each deletion,
   * identified by its place in the captured list, settles once.
   */
  predicate IsSettleOrder(order: seq<nat>, n: nat) {
    && |order| == n
    && (forall j :: 0 <= j < |order| ==> order[j] < n)
    && (forall j, j' :: 0 <= j < j' < |order| ==> order[j] != order[j'])
  }

  /** Whether the `t`th deletion of `names` was rejected. */
  predicate Rejected(names: seq<string>, replies: seq<Reply<DeleteResponse>>, t: nat)
    requires |replies| == |names| && t < |names|
  {
    DeleteStreamFn(names[t], replies[t]).result.Failure?
  }

  /**
   * Of the first `j` deletions to settle, in `order`, the last one rejected:
   * none exactly when all of them succeeded, otherwise a rejected one after
   * which every deletion to settle succeeded.
   */
  function LastRejected(names: seq<string>, replies: seq<Reply<DeleteResponse>>, order: seq<nat>, j: nat): (r: Option<nat>)
    requires |replies| == |names| && j <= |order|
    requires forall i :: 0 <= i < |order| ==> order[i] < |names|
    ensures r.None? <==> forall i :: 0 <= i < j ==> !Rejected(names, replies, order[i])
    ensures r.Some? ==>
      exists i :: 0 <= i < j && order[i] == r.value && Rejected(names, replies, r.value)
        && forall i' :: i < i' < j ==> !Rejected(names, replies, order[i'])
    decreases j
  {
    if j == 0 then None
    else if Rejected(names, replies, order[j - 1]) then Some(order[j - 1])
    else LastRejected(names, replies, order, j - 1)
  }

  /**
   * How many optimistic writes the list keeps once the first `j` deletions
   * have settled: all of them while none was rejected, otherwise those made
   * before the snapshot of the last rejected one, which its rollback restores.
   */
  function KeptWrites(names: seq<string>, replies: seq<Reply<DeleteResponse>>, order: seq<nat>, j: nat): (k: nat)
    requires |replies| == |names| && j <= |order|
    requires forall i :: 0 <= i < |order| ==> order[i] < |names|
    ensures k <= |names|
    ensures k == |names| <==> forall i :: 0 <= i < j ==> !Rejected(names, replies, order[i])
  {
    match LastRejected(names, replies, order, j)
    case None => |names|
    case Some(t) => t
  }

  /**
   * The rollback of a rejected deletion brings back streams whose own
   * deletion succeeded: a name captured after the last rejected one, and not
   * before it, is listed again once everything has settled, although its
   * deletion went through.
   */
  lemma RollbackRestoresLaterNames(s: StreamsResponse, names: seq<string>, replies: seq<Reply<DeleteResponse>>, order: seq<nat>, i: nat)
    requires |replies| == |names| && IsSettleOrder(order, |names|)
    requires LastRejected(names, replies, order, |order|).Some?
    requires LastRejected(names, replies, order, |order|).value < i < |names|
    requires names[i] in s.streams && names[i] !in names[..LastRejected(names, replies, order, |order|).value]
    ensures names[i] in RemoveAll(s, names[..KeptWrites(names, replies, order, |order|)]).streams
  {
    RemoveAllContents(s, names[..KeptWrites(names, replies, order, |order|)]);
  }

  /**
   * The entries once the optimistic writes for `done` have been made over
   * `entries`, whose list is `snap`: nothing is written when there is no list.
   */
  function MutatedEntries(entries: map<QueryKey, Entry<QueryData>>, snap: Option<StreamsResponse>, done: seq<string>): (r: map<QueryKey, Entry<QueryData>>)
    requires snap == AsStreams(DataAt(entries, StreamsKey))
    ensures r.Keys == entries.Keys
    ensures forall k :: k in r && k != StreamsKey ==> r[k] == entries[k]
    ensures snap.Some? ==> DataAt(r, StreamsKey) == Some(StreamsData(RemoveAll(snap.value, done)))
  {
    if snap.Some? && |done| > 0 then entries[StreamsKey := Entry(Some(StreamsData(RemoveAll(snap.value, done))), false)]
    else entries
  }

  /** The snapshot the `i`th of the overlapping mutations reads: the list without the names before it. */
  function SnapshotAt(snap: Option<StreamsResponse>, names: seq<string>, i: nat): (r: Option<StreamsResponse>)
    requires i <= |names|
    ensures r.Some? <==> snap.Some?
    ensures r.Some? ==> r.value.count == snap.value.count - i
  {
    if snap.Some? then Some(RemoveAll(snap.value, names[..i])) else None
  }

  /**
   * One more optimistic write: the mutation reads the list the writes so far
   * have left, and writing its optimistic list over it adds its name to them.
   */
  lemma MutateStep(entries: map<QueryKey, Entry<QueryData>>, snap: Option<StreamsResponse>, names: seq<string>, i: nat)
    requires snap == AsStreams(DataAt(entries, StreamsKey)) && i < |names|
    ensures AsStreams(DataAt(MutatedEntries(entries, snap, names[..i]), StreamsKey)) == SnapshotAt(snap, names, i)
    ensures snap.Some? ==>
      MutatedEntries(entries, snap, names[..i])[StreamsKey := Entry(Some(StreamsData(OptimisticRemove(SnapshotAt(snap, names, i).value, names[i]))), false)]
        == MutatedEntries(entries, snap, names[..i + 1])
  {
    assert names[..i + 1][..i] == names[..i] && names[..i + 1][i] == names[i];
  }

  /**
   * StreamsList.tsx:69-70, the first half of the bulk delete: `map` starts one
   * mutation per captured name before any reply can arrive, so every
   * `onMutate` runs, in order, first. Each snapshot already lacks the names
   * before it, and the list ends with every name optimistically removed.
   * `snap` is the list the first snapshot reads.
   */
  method MutateAll(cache: Cache<QueryData>, captured: seq<string>, ghost snap: Option<StreamsResponse>)
    returns (ctxs: seq<DeleteContext>)
    requires snap == AsStreams(DataAt(cache.entries, StreamsKey))
    modifies cache
    ensures |ctxs| == |captured|
    ensures forall i :: 0 <= i < |captured| ==> ctxs[i].prev == SnapshotAt(snap, captured, i)
    ensures cache.entries == MutatedEntries(old(cache.entries), snap, captured)
    ensures |captured| > 0 ==> cache.fetching == Cancelled(old(cache.fetching), cache.rule, StreamsKey)
    ensures |captured| == 0 ==> cache.fetching == old(cache.fetching)
  {
    ghost var entries0 := cache.entries;
    ghost var fetching0 := cache.fetching;
    ctxs := [];
    var i := 0;
    while i < |captured|
      invariant 0 <= i <= |captured|
      invariant |ctxs| == i && forall k :: 0 <= k < i ==> ctxs[k].prev == SnapshotAt(snap, captured, k)
      invariant cache.entries == MutatedEntries(entries0, snap, captured[..i])
      invariant i > 0 ==> cache.fetching == Cancelled(fetching0, cache.rule, StreamsKey)
      invariant i == 0 ==> cache.fetching == fetching0
    {
      MutateStep(entries0, snap, captured, i);
      var ctx := OnMutate(cache, captured[i]);
      CancelIdempotent(fetching0, cache.rule, StreamsKey);
      ctxs := ctxs + [ctx];
      i := i + 1;
    }
    assert captured[..i] == captured;
  }

  /**
   * A settled deletion's own write (StreamsList.tsx:48): the rollback to its
   * snapshot when it was rejected and had one; no other entry changes.
   */
  function Rollback(entries: map<QueryKey, Entry<QueryData>>, ctx: DeleteContext, rejected: bool): (r: map<QueryKey, Entry<QueryData>>)
    ensures forall k :: k in entries && k != StreamsKey ==> k in r && r[k] == entries[k]
    ensures DataAt(r, StreamsKey) == if rejected && ctx.prev.Some? then Some(StreamsData(ctx.prev.value)) else DataAt(entries, StreamsKey)
  {
    if rejected && ctx.prev.Some? then entries[StreamsKey := Entry(Some(StreamsData(ctx.prev.value)), false)] else entries
  }

  /**
   * The entries once the first `j` deletions in `order` have settled, each
   * rolling back if rejected and then invalidating the list, which is left flagged.
   */
  function SettledEntries(entries: map<QueryKey, Entry<QueryData>>, rule: MatchRule, captured: seq<string>,
                          replies: seq<Reply<DeleteResponse>>, order: seq<nat>, ctxs: seq<DeleteContext>, j: nat): (r: map<QueryKey, Entry<QueryData>>)
    requires |replies| == |captured| && |ctxs| == |captured| && j <= |order|
    requires forall i :: 0 <= i < |order| ==> order[i] < |captured|
    ensures j > 0 && StreamsKey in r ==> r[StreamsKey].stale
    decreases j
  {
    if j == 0 then entries
    else
      var t := order[j - 1];
      Invalidated(Rollback(SettledEntries(entries, rule, captured, replies, order, ctxs, j - 1), ctxs[t], Rejected(captured, replies, t)), rule, StreamsKey)
  }

  /** Two steps that each keep the other entries keep them together. */
  lemma OthersKeptTrans(a: map<QueryKey, Entry<QueryData>>, b: map<QueryKey, Entry<QueryData>>, c: map<QueryKey, Entry<QueryData>>, rule: MatchRule, touched: bool)
    requires OthersKept(a, b, rule, touched) && OthersKept(b, c, rule, true)
    ensures OthersKept(a, c, rule, true)
  {
  }

  /**
   * One settlement changes no entry's data but the list's, flags what the
   * list key selects, and leaves the list as the snapshot when it rolled back.
   * A snapshot was read from the list's entry, so the entry is there.
   */
  lemma SettleStepFrame(entries: map<QueryKey, Entry<QueryData>>, rule: MatchRule, ctx: DeleteContext, rejected: bool)
    requires ctx.prev.Some? ==> StreamsKey in entries
    ensures OthersKept(entries, Invalidated(Rollback(entries, ctx, rejected), rule, StreamsKey), rule, true)
    ensures DataAt(Invalidated(Rollback(entries, ctx, rejected), rule, StreamsKey), StreamsKey) ==
      if rejected && ctx.prev.Some? then Some(StreamsData(ctx.prev.value)) else DataAt(entries, StreamsKey)
  {
  }

  /**
   * Settling changes no entry's data but the list's and flags what the list
   * key selects once anything settled. Every snapshot was read from the
   * list's entry, so rolling back never adds a key.
   */
  lemma {:induction false} SettledEntriesFrame(entries: map<QueryKey, Entry<QueryData>>, rule: MatchRule, captured: seq<string>,
                                               replies: seq<Reply<DeleteResponse>>, order: seq<nat>, ctxs: seq<DeleteContext>, j: nat)
    requires |replies| == |captured| && |ctxs| == |captured| && j <= |order|
    requires forall i :: 0 <= i < |order| ==> order[i] < |captured|
    requires forall i :: 0 <= i < |ctxs| && ctxs[i].prev.Some? ==> StreamsKey in entries
    ensures OthersKept(entries, SettledEntries(entries, rule, captured, replies, order, ctxs, j), rule, j > 0)
    decreases j
  {
    if j > 0 {
      var t := order[j - 1];
      SettledEntriesFrame(entries, rule, captured, replies, order, ctxs, j - 1);
      var mid := SettledEntries(entries, rule, captured, replies, order, ctxs, j - 1);
      var rejected := Rejected(captured, replies, t);
      SettleStepFrame(mid, rule, ctxs[t], rejected);
      OthersKeptTrans(entries, mid, Invalidated(Rollback(mid, ctxs[t], rejected), rule, StreamsKey), rule, j - 1 > 0);
    }
  }

  /**
   * Once the first `j` deletions have settled, the list, when the snapshots
   * were taken over a list `snap`, holds the optimistic writes `KeptWrites`
   * counts; with no list, rolling back writes nothing.
   */
  lemma {:induction false} SettledList(entries: map<QueryKey, Entry<QueryData>>, rule: MatchRule, captured: seq<string>,
                                       replies: seq<Reply<DeleteResponse>>, order: seq<nat>, ctxs: seq<DeleteContext>,
                                       snap: Option<StreamsResponse>, j: nat)
    requires |replies| == |captured| && |ctxs| == |captured| && j <= |order|
    requires forall i :: 0 <= i < |order| ==> order[i] < |captured|
    requires forall i :: 0 <= i < |captured| ==> ctxs[i].prev == SnapshotAt(snap, captured, i)
    requires snap.Some? ==> DataAt(entries, StreamsKey) == Some(StreamsData(RemoveAll(snap.value, captured)))
    ensures DataAt(SettledEntries(entries, rule, captured, replies, order, ctxs, j), StreamsKey) ==
      if snap.Some? then Some(StreamsData(RemoveAll(snap.value, captured[..KeptWrites(captured, replies, order, j)])))
      else DataAt(entries, StreamsKey)
    decreases j
  {
    if j == 0 {
      assert captured[..|captured|] == captured;
    } else {
      SettledList(entries, rule, captured, replies, order, ctxs, snap, j - 1);
    }
  }

  /**
   * StreamsList.tsx:47-54, the second half: the replies arrive in `order` and
   * each settles its own mutation, a rejected one rolling the list back to its
   * own snapshot, every one invalidating the list. `xs` are the mutation
   * functions' exchanges, request and outcome, in the order they settled.
   */
  method SettleAll(cache: Cache<QueryData>, captured: seq<string>, replies: seq<Reply<DeleteResponse>>,
                   order: seq<nat>, ctxs: seq<DeleteContext>)
    returns (xs: seq<Exchange<DeleteResponse>>)
    requires |replies| == |captured| && |ctxs| == |captured| && IsSettleOrder(order, |captured|)
    modifies cache
    ensures |xs| == |order|
    ensures forall j :: 0 <= j < |order| ==> xs[j] == DeleteStreamFn(captured[order[j]], replies[order[j]])
    ensures cache.entries == SettledEntries(old(cache.entries), cache.rule, captured, replies, order, ctxs, |order|)
    ensures cache.fetching == old(cache.fetching)
  {
    ghost var entries1 := cache.entries;
    xs := [];
    var j := 0;
    while j < |order|
      invariant 0 <= j <= |order|
      invariant |xs| == j && forall k :: 0 <= k < j ==> xs[k] == DeleteStreamFn(captured[order[k]], replies[order[k]])
      invariant cache.entries == SettledEntries(entries1, cache.rule, captured, replies, order, ctxs, j)
      invariant cache.fetching == old(cache.fetching)
    {
      var t := order[j];
      ghost var before := cache.entries;
      var x := DeleteStreamFn(captured[t], replies[t]);
      if x.result.Failure? {
        OnError(cache, ctxs[t]);
      }
      assert cache.entries == Rollback(before, ctxs[t], Rejected(captured, replies, t));
      OnSettled(cache);
      xs := xs + [x];
      j := j + 1;
    }
  }

  /**
   * StreamsList.tsx:61-84, the "delete all" confirmation: every mutation
   * starts before any settles (`MutateAll`), the replies settle them in
   * `order` (`SettleAll`), and `Promise.allSettled` reports the outcomes in
   * the captured order, from which the action counts the rejected ones and
   * resolves exactly when there are none. `xs` holds one `DELETE /stream`
   * exchange per deletion, in the order they settled. Other entries keep their
   * data; the list's entries are left invalidated once any deletion ran.
   */
  method DeleteAll(cache: Cache<QueryData>, captured: seq<string>, replies: seq<Reply<DeleteResponse>>, order: seq<nat>)
    returns (failed: nat, resolved: bool, xs: seq<Exchange<DeleteResponse>>)
    requires |replies| == |captured| && IsSettleOrder(order, |captured|)
    modifies cache
    ensures |xs| == |captured|
    ensures forall j :: 0 <= j < |order| ==> xs[j] == DeleteStreamFn(captured[order[j]], replies[order[j]])
    ensures failed == CountRejected(Settle(captured, replies))
    ensures resolved <==> forall i :: 0 <= i < |captured| ==> DeleteStreamFn(captured[i], replies[i]).result.Success?
    ensures resolved <==> failed == 0
    ensures cache.entries.Keys == old(cache.entries).Keys
    ensures forall k :: k in cache.entries && k != StreamsKey ==> cache.entries[k].data == old(cache.entries)[k].data
    ensures forall k :: k in cache.entries ==>
      (cache.entries[k].stale <==> old(cache.entries)[k].stale || (|captured| > 0 && Matches(cache.rule, StreamsKey, k)))
    ensures var snap := AsStreams(DataAt(old(cache.entries), StreamsKey));
      DataAt(cache.entries, StreamsKey) ==
        if snap.Some? then Some(StreamsData(RemoveAll(snap.value, captured[..KeptWrites(captured, replies, order, |order|)])))
        else DataAt(old(cache.entries), StreamsKey)
    ensures |captured| > 0 ==> cache.fetching == Cancelled(old(cache.fetching), cache.rule, StreamsKey)
    ensures |captured| == 0 ==> cache.fetching == old(cache.fetching)
  {
    ghost var entries0 := cache.entries;
    ghost var snap := AsStreams(DataAt(cache.entries, StreamsKey));
    var ctxs;
    ctxs := MutateAll(cache, captured, snap);
    ghost var entries1 := cache.entries;
    xs := SettleAll(cache, captured, replies, order, ctxs);
    SettledEntriesFrame(entries1, cache.rule, captured, replies, order, ctxs, |order|);
    SettledList(entries1, cache.rule, captured, replies, order, ctxs, snap, |order|);
    failed := CountRejected(Settle(captured, replies));
    resolved := failed == 0;
  }

  /**
   * Two deletions started together (StreamsList.tsx:69-70) take their
   * snapshots before either settles. When "b"'s deletion succeeds and then
   * "a"'s fails, the rollback restores "a"'s snapshot, which still lists "b":
   * the cache shows a deleted stream until the invalidated list is refetched.
   */
  method SnapshotRace() returns (shown: StreamsResponse, invalidated: bool)
    ensures shown.streams == ["a", "b"] && shown.count == 2
    ensures invalidated
  {
    var cache := new Cache<QueryData>(Exact, map[StreamsKey := Entry(Some(StreamsData(StreamsResponse(["a", "b"], 2))), false)], {});
    var ctxA := OnMutate(cache, "a");
    var ctxB := OnMutate(cache, "b");
    OnSettled(cache);
    OnError(cache, ctxA);
    OnSettled(cache);
    shown := AsStreams(cache.GetQueryData(StreamsKey)).value;
    invalidated := cache.entries[StreamsKey].stale;
  }

  /**
   * Why the snapshot waits for `cancelQueries` (StreamsList.tsx:37): a list
   * fetch in flight when the deletion starts is cancelled, so whatever it
   * brings back, when it arrives, the entries stay as `onMutate` left them.
   */
  method FetchDuringDelete(cache: Cache<QueryData>, name: string, fetched: Option<QueryData>) returns (ctx: DeleteContext)
    modifies cache
    ensures ctx.prev == AsStreams(DataAt(old(cache.entries), StreamsKey))
    ensures ctx.prev.Some? ==>
      cache.entries == old(cache.entries)[StreamsKey := Entry(Some(StreamsData(OptimisticRemove(ctx.prev.value, name))), false)]
    ensures ctx.prev.None? ==> cache.entries == old(cache.entries)
    ensures StreamsKey !in cache.fetching
  {
    cache.StartFetch(StreamsKey);
    ctx := OnMutate(cache, name);
    cache.ResolveFetch(StreamsKey, fetched);
  }
}
