# kinesis-admin, modelled in Dafny

kinesis-admin is a small web dashboard for Amazon Kinesis. It has two parts:

- a Go server (`handler.go`) with five JSON endpoints. They list streams,
  delete a stream, describe a stream, sample a stream's latest messages and
  publish a message;
- a React client (`StreamsList.tsx`, `StreamOverview.tsx`) that reads those
  endpoints through a shared query cache and changes the cache when a
  mutation (delete, publish) settles.

This project models both parts and proves what each promises.

- **Server** (`handler.dfy`, `kinesis.dfy`, `api.dfy`). The Kinesis client is
  an oracle, a datatype of functions plus a finite script of `ListStreams`
  pages; each call either succeeds or fails with a cause. Each handler is an
  imperative method. It returns its response or its error, and the client
  calls it made in order, so "no client call" reads `calls == []`. The
  `LatestMessages` sampler is also defined as functions (`SampleShards`,
  `SampleCalls`), and its loops are proved equal to them. The lemmas state
  the sampler's bounds, its failure rule and its shard order.
- **Client** (`http.dfy`, `query_cache.dfy`, `streams_list.dfy`,
  `stream_overview.dfy`). `fetch` is a reply, which is a status with a
  decoded body, or a network failure. The query cache is a class holding:
  - a map from query key (a sequence of strings) to an entry, which is the
    data if there is any plus an "invalidated" flag;
  - the set of in-flight fetches.

  The cache methods are the four operations the pages call, plus the start
  and arrival of a fetch. The rule by which a filter key selects entries is
  not in the application's code, so it is a parameter: exact, or prefix.
  `KeysIndependent` shows the application behaves the same under both.
  Each mutation handler is a method on the cache. The transport's reply is
  an input.

  The bulk delete follows the order in which the page really runs it. The
  `map` at StreamsList.tsx:70 starts every mutation at once, so every
  `onMutate` takes its snapshot and writes its optimistic list before any
  reply arrives. The replies then settle the mutations in any order. Each
  snapshot already lacks the names captured before it. So when a deletion
  is rejected, its rollback brings back every name captured after it,
  including names whose own deletion succeeded. The list left behind is the
  snapshot of the last rejection to settle (`KeptWrites`), until the
  invalidated list is refetched.

## Model

| member | source | states |
|---|---|---|
| Handler.ListStreams | handler.go:53-77 | The calls are exactly `ListCalls` up to and including the first page that fails or has no next token: the first carries no token, each later one the previous page's token. A failure aborts with that error. Otherwise the response is every page's names in page order, with `count` equal to their number. |
| Handler.FirstEnd | handler.go:58-71 | The index at which the pagination loop stops: the first page that fails or has no next token. |
| Handler.AllNames | handler.go:64 | The names of the pages, page after page: a name is there exactly when some page lists it. |
| Handler.AllNamesAppend | handler.go:64 | Appending page by page concatenates the pages' names in page order. |
| Handler.AllNamesCons | handler.go:64 | The first page's names come before the names of all later pages. |
| Handler.ListCalls | handler.go:56-70 | The first `n` ListStreams requests: the `j`th carries no token when `j` is 0, and the next token of page `j-1` otherwise. |
| Handler.DeleteStream | handler.go:80-89 | A missing input or empty name gives "streamName required" and no client call. Otherwise one DeleteStream call is made for that name. Its error is passed on; on success the response is `{status: "deleted", stream: name}`. |
| Handler.ToString | handler.go:104 | `aws.ToString`: the string when present, `""` when nil. |
| Handler.DescribeStream | handler.go:92-110 | A missing input or empty name gives "streamName required" and no client call. Otherwise one DescribeStream call is made, and its error is passed on. On success the response carries the description's name, ARN (nil read as ""), status and retention, plus its number of shards and its encryption type. |
| Handler.EffectiveLimit | handler.go:118-121 | The requested limit when positive, 50 otherwise. Always at least 1. |
| Handler.Quota | handler.go:130-133 | At least 1. With no more shards than the limit, it is the largest per-shard count whose total fits the limit (`q*n <= limit < (q+1)*n`). With more shards than the limit, it is 1. |
| Handler.Take | handler.go:151-155 | The shard's first `min(quota, len)` records: a prefix of its answer with that length. |
| Handler.ToMessage | handler.go:156-162 | A record goes out with the shard's id and its own partition key, sequence number and arrival time copied through, nil included, and its payload as text. |
| Handler.Tagged | handler.go:151-164 | One response element per record, in record order, each the record's `ToMessage`. |
| Handler.FetchShard | handler.go:136-150 | A shard's fetch succeeds exactly when its iterator request succeeded with an iterator and the records request succeeded, and then yields those records. Every failure is one of the three shard errors and carries the shard id as `aws.ToString` prints it. A failed iterator request, a missing iterator and a failed records request each give their own error, and a failed call's error carries the SDK's cause. |
| Handler.ShardCalls | handler.go:136-147 | A shard's calls: first the iterator request from `TRIM_HORIZON`, then the records request with the returned iterator, made exactly when an iterator came back. |
| Handler.SampleShards | handler.go:134-165 | The sampler's specification: the shards' records, shard after shard, or the first failing shard's error, which is always one of the three shard errors. |
| Handler.SampleCalls | handler.go:134-150 | The client calls the sampler makes, up to and including the first failing shard's: at most two per shard. |
| Handler.TakeRecords | handler.go:151-164 | The inner loop keeps, tagged with the shard id, exactly the first `min(perShard, len)` records in record order, and never more than `perShard`. |
| Handler.ReadShard | handler.go:136-164 | One shard gets an iterator request from `TRIM_HORIZON`, then a records request once an iterator came back. A failed iterator request, a missing iterator or a failed records request is that shard's error. Otherwise it keeps the shard's first `perShard` records, tagged with the shard id. |
| Handler.ReadShards | handler.go:134-165 | The shard loop's outcome and its calls equal the sampler's specification (`SampleShards`, `SampleCalls`). It stops at the first shard that fails. |
| Handler.LatestMessages | handler.go:114-171 | A missing input or empty name gives an error and no client call. A describe failure aborts after that single call. Zero shards answer `{[], 0, 0}` with no shard call. Otherwise the shards are sampled with quota `Quota(EffectiveLimit(limit), shards)`. The first shard failure aborts with no records. On success `count` is the number of records and `shards` the number of shards. |
| Handler.FailureStopsSampling | handler.go:141-150 | Once a shard fails, the later shards are neither sampled nor called. |
| Handler.SampleFailure | handler.go:141-150 | The sample fails exactly when some shard's iterator request or records request fails, or its iterator is missing. The error is the one from the first shard that failed. |
| Handler.SampleBound | handler.go:130-164 | A successful sample has at most `quota * shards` records. |
| Handler.SampleWithinLimit | handler.go:130-133 | With no more shards than the limit, a successful sample stays within the limit. |
| Handler.OnePerShard | handler.go:131-133 | With quota 1 and a record on every shard, each shard gives exactly one record. |
| Handler.SampleCanExceedLimit | handler.go:130-133 | With more shards than the limit and a record on each, the sample has one record per shard, which is more than the limit. |
| Handler.ContributionsSnoc | handler.go:135-165 | Adding a shard at the end appends its contribution. |
| Handler.SampleInShardOrder | handler.go:135-170 | A successful sample is the shards' contributions concatenated in shard order. Each shard contributes its first `min(quota, len)` records, in record order. |
| Handler.SampleCallCount | handler.go:135-150 | A successful sample made exactly two client calls per shard. |
| Handler.PublishMessage | handler.go:174-199 | A missing input, or an empty ARN or data, gives an error and no call. An empty partition key is replaced by the generated one, and a non-empty key is kept. Exactly one PutRecord call is made with the key used. The response reports the shard, the sequence number and that key, which is never empty. |
| Http.IsOk | frontend/src/StreamsList.tsx:14 | `res.ok` holds exactly for the statuses 200-299. |
| Http.Expect | frontend/src/StreamsList.tsx:14-15 | The fetchers' rule: success with the decoded body exactly when the status is 200-299. Otherwise it rejects with the status, or with the network failure. |
| Http.QueryParam | frontend/src/StreamOverview.tsx:30 | The first value given for a query parameter, present exactly when the parameter is. |
| StreamsList.StreamsQuery | frontend/src/StreamsList.tsx:20-24 | Key `['streams']`, stale time 30000 ms, no polling. |
| StreamsList.FetchStreams | frontend/src/StreamsList.tsx:12-16 | `GET /list`. It fails exactly when the reply is not ok, and otherwise yields the body. |
| StreamsList.DeleteStreamRequest | frontend/src/StreamsList.tsx:28-32 | The delete request: `DELETE /stream`, no query, and `{streamName: name}` as the body. |
| StreamsList.DeleteStreamFn | frontend/src/StreamsList.tsx:27-35 | `DELETE /stream` with `{streamName}` as the body. It fails exactly when the reply is not ok. |
| StreamsList.AsStreams | frontend/src/StreamsList.tsx:38 | The cached data read as a stream list: present exactly when the data is a stream list, and then that list. |
| StreamsList.Without | frontend/src/StreamsList.tsx:41 | The filter removes every occurrence of the name and keeps every other name's number of occurrences. |
| StreamsList.WithoutAppend | frontend/src/StreamsList.tsx:41 | The filter keeps order: filtering a concatenation concatenates the filtered parts. |
| StreamsList.WithoutAbsent | frontend/src/StreamsList.tsx:41 | Filtering out an absent name returns the list unchanged. |
| StreamsList.OptimisticRemove | frontend/src/StreamsList.tsx:40-43 | The optimistic list: the name is gone, other names keep their multiplicity, and `count` is `prev.count - 1`. |
| StreamsList.RemovingAbsentNameStillCounts | frontend/src/StreamsList.tsx:42 | When the name is absent, the list is unchanged but `count` still drops by one. |
| StreamsList.OnMutate | frontend/src/StreamsList.tsx:36-46 | In-flight list fetches are cancelled. The snapshot is the list as it was. With a snapshot, the list entry is overwritten with the optimistic list; without one, no entry changes. |
| StreamsList.OnError | frontend/src/StreamsList.tsx:47-50 | With a snapshot, the list entry is restored to exactly the snapshot. Without one, the cache is not written. |
| StreamsList.OnSettled | frontend/src/StreamsList.tsx:52-54 | The list is invalidated, and nothing else changes. |
| StreamsList.DeleteEffect | frontend/src/StreamsList.tsx:36-54 | The entries after one settled deletion: no key is added or dropped, and the list's entry is left invalidated. |
| StreamsList.DeleteEffectFrame | frontend/src/StreamsList.tsx:36-54 | After one deletion settles, no key is added or dropped and no entry's data changes except the list's. The flags set are the old ones plus those of the entries the list key selects. The list holds the optimistic value on success when it had data, and exactly its old data otherwise: success writes nothing else, and failure rolls back to the snapshot. |
| StreamsList.Delete | frontend/src/StreamsList.tsx:26-55 | One `deleteMutation.mutate(name)` run to settlement, composed from `OnMutate`, `OnError` on failure and `OnSettled`. The entries end as `DeleteEffect` of the old ones, whose properties `DeleteEffectFrame` states. In-flight list fetches are cancelled. |
| StreamsList.CountRejected | frontend/src/StreamsList.tsx:72 | The number of rejected outcomes. It is 0 exactly when every outcome succeeded. |
| StreamsList.AllRejectedCounted | frontend/src/StreamsList.tsx:72 | When every deletion rejects, the count is the number of deletions. |
| StreamsList.Settle | frontend/src/StreamsList.tsx:70-71 | One outcome per captured name, in order, each the outcome of its deletion. |
| StreamsList.RemoveAll | frontend/src/StreamsList.tsx:38-43 | The list after optimistic writes one after another, each over the list the one before left. The count drops by one per write, listed or not. |
| StreamsList.RemoveAllContents | frontend/src/StreamsList.tsx:40-43 | After those writes, a name is listed exactly when it was listed before and is not among the written names. |
| StreamsList.LastRejected | frontend/src/StreamsList.tsx:47-48 | Of the first `j` deletions to settle, the last one rejected. It is absent exactly when all of them succeeded. Otherwise it is a rejected deletion after which every deletion to settle succeeded. |
| StreamsList.KeptWrites | frontend/src/StreamsList.tsx:36-50 | How many optimistic writes the list keeps once `j` deletions have settled. It is all of them exactly when none was rejected. Otherwise it is the place of the last rejected deletion, whose snapshot holds the writes before it. |
| StreamsList.RollbackRestoresLaterNames | frontend/src/StreamsList.tsx:36-50 | Take a listed name captured after the last rejected deletion and not before it. Once everything has settled it is listed again, even though its own deletion went through. |
| StreamsList.RollbackKeepsEarlierRemovals | frontend/src/StreamsList.tsx:36-50 | Take a name captured before the last rejected deletion. Once everything has settled it is not listed, even when its own deletion was rejected. |
| StreamsList.SnapshotAt | frontend/src/StreamsList.tsx:38 | The snapshot the `i`th overlapping mutation reads. It is present exactly when there was a list, and its count is `i` below the list's. |
| StreamsList.MutatedEntries | frontend/src/StreamsList.tsx:36-46 | The entries after a run of optimistic writes: no key changes, no other entry changes, and the list, if there was one, is `RemoveAll` of it. |
| StreamsList.MutateStep | frontend/src/StreamsList.tsx:37-43 | The next mutation's snapshot is the list the writes so far left. Writing its optimistic list adds its name to the run. |
| StreamsList.MutateAll | frontend/src/StreamsList.tsx:69-70 | Every `onMutate` runs, in captured order, before any reply. The `i`th snapshot is the list without the names captured before it. The entries end as `MutatedEntries`, with every name optimistically removed. List fetches are cancelled. |
| StreamsList.Rollback | frontend/src/StreamsList.tsx:48 | A rejected deletion with a snapshot writes exactly that snapshot to the list. Nothing else is written, and no other entry changes. |
| StreamsList.SettledEntries | frontend/src/StreamsList.tsx:47-54 | The entries after the first `j` settlements, each a rollback if rejected and then an invalidation. The list is left invalidated. |
| StreamsList.SettleStepFrame | frontend/src/StreamsList.tsx:47-54 | One settlement keeps every key and every other entry's data. It flags what the list key selects, and leaves the list as the snapshot when it rolled back, untouched otherwise. |
| StreamsList.SettledEntriesFrame | frontend/src/StreamsList.tsx:47-54 | A run of settlements keeps every key and every other entry's data. Once anything settled, exactly the entries the list key selects are newly flagged. |
| StreamsList.SettledList | frontend/src/StreamsList.tsx:47-54 | After `j` settlements the list, when the snapshots were taken over one, holds the first `KeptWrites` optimistic writes. With no list, nothing is written. |
| StreamsList.SettleAll | frontend/src/StreamsList.tsx:47-54 | The replies settle their mutations in the given order, each rolling back if rejected and invalidating the list. The exchanges, each a `DELETE /stream` request with its outcome, are returned in settle order. The entries end as `SettledEntries`, and in-flight fetches do not change. |
| StreamsList.DeleteAll | frontend/src/StreamsList.tsx:61-84 | One exchange per deletion, in settle order: the `j`th is the delete of the name that settled `j`th, with its outcome. `failed` is the number rejected, and the action resolves exactly when every deletion succeeded, that is when `failed` is 0. No key changes, and no other entry's data changes. Once any deletion ran, the entries the list key selects are flagged. The list, if there was one, ends as the snapshot `KeptWrites` names: every captured name removed when all succeeded, the last rejection's snapshot otherwise. List fetches are cancelled. |
| StreamsList.SnapshotRace | frontend/src/StreamsList.tsx:36-50 | Two deletions whose snapshots are taken before either settles: "b" succeeds, then "a" fails. The rollback brings back a list that still shows "b"; only the invalidation flag points to a refetch. |
| StreamsList.FetchDuringDelete | frontend/src/StreamsList.tsx:37 | For any cache, name and fetched result: a list fetch in flight when a deletion starts is cancelled. When its result arrives, the entries stay exactly as `onMutate` left them, and no list fetch is in flight. |
| StreamOverview.DescriptionQuery | frontend/src/StreamOverview.tsx:45-49 | Key `['stream', name]`, stale time 30000 ms, no polling. |
| StreamOverview.MessagesQuery | frontend/src/StreamOverview.tsx:51-56 | Key `['stream-messages', name]`, stale time 10000 ms, polled every 15000 ms. |
| StreamOverview.FetchDescription | frontend/src/StreamOverview.tsx:29-33 | `GET /stream/describe` with `streamName` set to the name. It fails exactly when the reply is not ok. |
| StreamOverview.FetchMessages | frontend/src/StreamOverview.tsx:35-39 | `GET /stream/messages` with `streamName` set to the name and `limit` always `40`. It fails exactly when the reply is not ok. |
| StreamOverview.KeysIndependent | frontend/src/StreamOverview.tsx:46-52 | Under exact matching and under prefix matching alike, an application key selects another application key only when they are the same query. |
| StreamOverview.InvalidationReachesOnlyItsQuery | frontend/src/StreamOverview.tsx:70 | Invalidating one application query leaves every other application query's entry as it was. |
| StreamOverview.DeleteStream | frontend/src/StreamOverview.tsx:58-76 | On success, only the stream list is invalidated and the page navigates to "/". On failure, no cache entry changes and the page stays. There is no optimistic write. |
| StreamOverview.PublishBody | frontend/src/StreamOverview.tsx:148 | The body is the form's values with `streamArn` set to the page's ARN, which overrides any `streamArn` among the values. Every other field is kept as it was. |
| StreamOverview.PublishFn | frontend/src/StreamOverview.tsx:144-153 | `POST /stream/message` with that body. It fails exactly when the reply is not ok. |
| StreamOverview.PublishForm.ResetFields | frontend/src/StreamOverview.tsx:156 | The form, which has no initial values, is cleared. |
| StreamOverview.Publish | frontend/src/StreamOverview.tsx:139-162 | On success, the form is reset and only `['stream-messages', streamName]` is invalidated. On failure, neither the cache nor the form changes. |
| QueryCache.Matches | frontend/src/StreamsList.tsx:53 | Under either rule, a filter selects its own key, and only keys it is a prefix of. |
| QueryCache.Invalidated | frontend/src/StreamsList.tsx:53 | Invalidation keeps every key and its data. It flags exactly the entries the filter selects, and keeps the flags already set. |
| QueryCache.Cancelled | frontend/src/StreamsList.tsx:37 | The fetches that survive a cancel are exactly those the filter does not select. |
| QueryCache.DataAt | frontend/src/StreamsList.tsx:38 | The key's data; absent when the key has no entry or no data. |
| QueryCache.CancelIdempotent | frontend/src/StreamsList.tsx:37 | Cancelling the same filter twice drops no more than cancelling it once. |
| QueryCache.Cache.GetQueryData | frontend/src/StreamsList.tsx:38 | `getQueryData` reads `DataAt` of the current entries. |
| QueryCache.Cache.SetQueryData | frontend/src/StreamsList.tsx:40 | Writes the key's data and clears its flag. No other entry changes. |
| QueryCache.Cache.InvalidateQueries | frontend/src/StreamsList.tsx:53 | The entries become `Invalidated` of the old ones. |
| QueryCache.Cache.CancelQueries | frontend/src/StreamsList.tsx:37 | The in-flight set becomes `Cancelled` of the old one, and the entries do not change. |
| QueryCache.Cache.StartFetch | frontend/src/StreamsList.tsx:20-24 | A query's fetch joins the in-flight set, and the entries do not change. |
| QueryCache.Cache.ResolveFetch | frontend/src/StreamsList.tsx:37 | The result of a cancelled fetch is dropped. A successful fetch stores its data and clears the flag. A failed fetch keeps the old data. |

## Left out

- HTTP server wiring, CORS, static serving and route registration (main.go) are framework plumbing. The routes appear only as a comment in `handler.dfy`. Binding JSON and form input into the handlers' input structs is also left out: a nil body is `None`, and a bound input is `Some`.
- App.tsx, main.tsx and config.ts (routing, layout, bootstrap, the base URL) are not part of this model. Request paths are relative to the base URL.
- JSX rendering, antd toasts and notifications, and form UI are left out. Navigation is recorded only as its target.
- react-query internals are left out: the polling timer, refetch after invalidation, fetch deduplication, the staleness clock, garbage collection, and the real key-matching rule. The rule is a parameter, exact or prefix, and staleness is a flag that invalidation sets.
- The transport and JSON decoding are left out. A reply carries an already decoded body, so a body that fails to parse (`res.json()` rejecting) is not modelled, and neither is URL encoding of query values (`encodeURIComponent`).
- The client's `getQueryData<StreamsResponse>` type argument is an unchecked cast. `StreamsList.AsStreams` reads data of another shape under `['streams']` as absent.
- The AWS SDK is an oracle: each call's answer is a function of its arguments, and `ListStreams` pages come from a finite script indexed by call number. The string pointers the handlers copy into responses are `Option`, so a nil goes out as `null`. These are the shard id, the record's partition key and sequence number, and PutRecord's shard id and sequence number. The description's stream name (handler.go:103) and retention period (handler.go:106), and the record's arrival time (handler.go:160), are `Option` too. The ARN is read through `aws.ToString`, and shard errors print the id through it.
- The record's arrival time is an opaque `int`. In Go it is a `time.Time`, which goes out as an RFC 3339 string; that format is not modelled.
- Handler.ListStreams: requires the page script to end, with some page failing or having no next token. A client that paginates forever makes the Go loop never return, and this model does not cover that case.
- A nil slice vs. an empty one is left out. Go's `records` and `all` are nil when nothing was appended, and they encode as JSON `null`, not `[]`. The model answers an empty sequence.
- `uuid.New().NewV4()` is the parameter `generatedKey` of `Handler.PublishMessage`. It can be any non-empty string.
- `fmt.Println` logging (handler.go:192) is left out.
- Record data is kept as text: `dataBase64` is `string(r.Data)` (handler.go:161), not base64. The iterator type is the constant `TRIM_HORIZON`, which the code passes (handler.go:139). The doc comment at handler.go:112 says LATEST; the model follows the code.
- The bulk delete's interleaving is fixed to the one the page produces: every `onMutate` first, in captured order, then the settlements in any order. A reply that arrives while later mutations are still awaiting `cancelQueries`, and the refetch that follows the invalidation, are left out. So the final list is the one before that refetch.
