/** The JSON envelope both services answer with: a status code, `thoughts`,
    an optional `error` and the `tool_calls` array. */
module Envelope {
  import opened Js

  /** One entry of `tool_calls`: the `audio` variant of the conversion
      service or the `text` variant of the recognition service. */
  datatype ToolCall =
    | AudioCall(url: string, sizeMb: string, format: string, name: string)
    | TextCall(content: string, recognitionStatus: string, taskId: int)

  datatype HttpReply = HttpReply(status: int, thoughts: string, error: Option<string>, toolCalls: seq<ToolCall>)

  const MissingUrlThoughts := "缺少必要的视频URL参数"
  const FailureThoughts := "处理过程中发生错误"

  /** The uniform 500 envelope of both handlers' catch blocks. */
  function FailureReply(message: string): HttpReply {
    HttpReply(500, FailureThoughts, Some(message), [])
  }
}
