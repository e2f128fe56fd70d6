/** Values exchanged by the streamed completion handler: what a poll of the chunk
    stream yields, what travels over the channel, and what is sent to the
    messaging subsystem when a completion finishes. */
module StreamingTypes {

  datatype Option<T> = None | Some(value: T)

  datatype Result<T, E> = Ok(value: T) | Err(error: E)

  /** The provider's error type, reduced to the one distinction the handler makes:
      `Recoverable` or anything else (whose details are kept as opaque text). */
  datatype GptError = Recoverable | Unrecoverable(cause: string)

  /** Errors sent over the channel by the background task. */
  datatype StreamError =
    | Undefined(reason: string)
    | GptError(err: GptError)
    | RetryError

  /** The two states a completion reports to the consumer. */
  datatype CompletionStreamStatus = Working(token: string) | Finished

  /** One item of the raw chunk stream: either a chunk that deserialized, carrying
      what parsing its first choice gives (an optional text delta), or a
      transport/deserialization failure. */
  datatype StreamItem = Decoded(parsed: Option<string>) | DecodeErr

  /** What one call of the poller returns. */
  type PollResult = Result<Option<string>, GptError>

  /** What travels over the channel from the background task to the consumer. */
  type Message = Result<CompletionStreamStatus, StreamError>

  /** The sending end of the channel, as a take-once token. */
  datatype CompletionStreamSender = SenderHandle

  /** The request submitted to the messaging subsystem; `message` is the text of the
      assistant message built from the accumulated content. */
  datatype EnvRequest = PushToCache(agentId: string, message: string)
}
