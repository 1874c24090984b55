/**
 * The stream service's SDK client, seen by the handler as an oracle: every
 * call it can make is answered by one of the functions below, and every
 * answer may be a failure. The handler's calls are recorded as `Call` values
 * so that their number, order and arguments can be stated.
 */
module Kinesis {
  import opened Wrappers

  /** An SDK error, kept opaque. */
  type Cause = string

  /** One answer to `ListStreams`: a page of names and the token of the next page, if any. */
  datatype Page = Page(streamNames: seq<string>, nextToken: Option<string>)

  /** A shard of the description; its id is the SDK's string pointer, which may be nil. */
  datatype Shard = Shard(shardId: Option<string>)

  datatype StreamDescription = StreamDescription(
    streamName: Option<string>,
    streamArn: Option<string>,
    streamStatus: string,
    retentionPeriodHours: Option<int>,
    shards: seq<Shard>,
    encryptionType: string)

  /** A stored record; `data` is the payload bytes read as text, the keys are the SDK's pointers. */
  datatype Record = Record(
    partitionKey: Option<string>,
    sequenceNumber: Option<string>,
    approximateArrivalTimestamp: Option<int>,
    data: string)

  datatype PutRecordOutput = PutRecordOutput(shardId: Option<string>, sequenceNumber: Option<string>)

  /** The iterator type `LatestMessages` asks for (handler.go:139). */
  const TrimHorizon: string := "TRIM_HORIZON"

  /** A request sent to the client. */
  datatype Call =
    | ListStreamsCall(nextToken: Option<string>)
    | DeleteStreamCall(streamName: string)
    | DescribeStreamCall(streamName: string)
    | GetShardIteratorCall(streamName: string, shardId: Option<string>, iteratorType: string)
    | GetRecordsCall(shardIterator: string)
    | PutRecordCall(streamArn: string, partitionKey: string, data: string)

  /**
   * The oracle. `listStreamsPages[i]` answers the i-th `ListStreams` call of one
   * pagination; the other calls are answered as functions of their arguments.
   * `getShardIterator` may succeed without an iterator (`Success(None)`), as the
   * SDK's nil `ShardIterator` does.
   */
  datatype Client = Client(
    listStreamsPages: seq<Result<Page, Cause>>,
    deleteStream: string -> Result<(), Cause>,
    describeStream: string -> Result<StreamDescription, Cause>,
    getShardIterator: (string, Option<string>) -> Result<Option<string>, Cause>,
    getRecords: string -> Result<seq<Record>, Cause>,
    putRecord: (string, string, string) -> Result<PutRecordOutput, Cause>)
}
