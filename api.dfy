/**
 * The JSON bodies exchanged between the dashboard's HTTP server (handler.go)
 * and its browser client (StreamsList.tsx, StreamOverview.tsx). The Go handler
 * builds them and the TypeScript interfaces read them, so they are declared once.
 */
module Api {
  import opened Wrappers

  /** Body of `GET /api/list`, the `StreamsResponse` of the client. */
  datatype StreamsResponse = StreamsResponse(streams: seq<string>, count: int)

  /** Body of `DELETE /api/stream`. */
  datatype DeleteResponse = DeleteResponse(status: string, stream: string)

  /** Body of `GET /api/stream/describe`, the `StreamDescription` of the client. */
  datatype DescribeResponse = DescribeResponse(
    streamName: Option<string>,
    streamArn: string,
    status: string,
    retentionHours: Option<int>,
    shardCount: nat,
    encryptionType: string)

  /**
   * One element of the `records` array of `GET /api/stream/messages`. The
   * handler copies the SDK's string pointers through, so each may be `None`
   * (JSON `null`).
   */
  datatype MessageRecord = MessageRecord(
    shardId: Option<string>,
    partitionKey: Option<string>,
    sequenceNumber: Option<string>,
    approximateArrivalTimestamp: Option<int>,
    dataBase64: string)

  /** Body of `GET /api/stream/messages`, the `StreamMessagesResponse` of the client. */
  datatype MessagesResponse = MessagesResponse(records: seq<MessageRecord>, count: int, shards: int)

  /** Body of `POST /api/stream/message`; the shard and sequence number are the SDK's pointers, copied through. */
  datatype PublishResponse = PublishResponse(shardId: Option<string>, sequenceNumber: Option<string>, partitionKey: string)

  /** What the client keeps in its query cache: one variant per cached response type. */
  datatype QueryData =
    | StreamsData(streams: StreamsResponse)
    | DescriptionData(description: DescribeResponse)
    | MessagesData(messages: MessagesResponse)
}
