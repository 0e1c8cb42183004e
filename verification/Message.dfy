/** What travels over the hub: messages as datatypes rather than as JSON. */
module Messages {
  import StreamBuffers

  type LogData = StreamBuffers.LogData
  type Batch = StreamBuffers.Batch

  datatype Payload =
    | Log(line: LogData)
    | LogBatch(lines: Batch)
    | Complete(status: string)

  // An empty level makes the message bypass level filtering.
  datatype BroadcastMessage = BroadcastMessage(executionId: string, payload: Payload, level: string)

  // What a client's Send channel carries: broadcasts and direct replies.
  datatype Item = Broadcasted(message: BroadcastMessage) | Reply(text: string)

  // The message BroadcastBatch sends for a batch: a single line keeps its level, defaulting to
  // info, and a longer batch is not filtered. An empty batch sends nothing.
  function BatchMessages(executionId: string, b: Batch): seq<BroadcastMessage> {
    if b == [] then []
    else if |b| == 1 then
      [BroadcastMessage(executionId, Log(b[0]), if b[0].level == "" then "info" else b[0].level)]
    else [BroadcastMessage(executionId, LogBatch(b), "")]
  }

  function LinesOf(m: BroadcastMessage): seq<LogData> {
    match m.payload
    case Log(l) => [l]
    case LogBatch(b) => b
    case Complete(_) => []
  }
}
