# Streamed completion handler (tmux-monitor), modelled in Dafny

This project models the streaming side of the OpenAI chat-completion client in
`src/environment/agent/language_models/openai/gpt/streaming_utils.rs`:

- the **stream poller** (`CompletionStreamingThread::poll_stream_for_tokens`). It takes
  one item from the chunk stream and returns its parsed text delta. It returns `Ok(None)`
  when the stream is exhausted, when the item failed to decode, or when the chunk carries
  no delta.
- the **background task** that `spawn` starts. It loops: it polls, turns each outcome into
  `Ok(Working(t))`, `Ok(Finished)` or an error (`RetryError` for a recoverable provider
  error, `GptError(e)` otherwise), and sends it over the channel. It stops after sending
  `Finished`, or when a send fails.
- the **handler** (`StreamedCompletionHandler`). It is built by `from` with both take-once
  slots (`stream`, `sender`) filled. Its first `receive` empties both and starts the task.
  Each `receive` then takes at most one message from the channel:
  - `Working(t)` appends `t` to `message_content` and is returned.
  - `Finished` submits one `PushToCache` request carrying the agent id and the whole
    `message_content`. It returns `Finished` only if that submission succeeds.
  - An error, a timeout or a closed channel returns nothing.

Files:

- `streaming_types.dfy` (module `StreamingTypes`) holds the values.
- `stream_poller.dfy` (module `StreamPoller`) holds the stream cursor and the poller.
- `completion_producer.dfy` (module `CompletionProducer`) holds the background task and
  its specification `Emitted`/`Produced`.
- `completion_handler.dfy` (module `CompletionHandler`) holds the handler:
  - the class `StreamedCompletionHandler`;
  - its state as a value, `HandlerState`;
  - one `receive` as a function, `ReceiveStep`;
  - the caller's loop of `receive` calls, `Drive`.

How the model is abstracted:

- **Concurrency.** The background task is run to completion when it is spawned. What it
  sends is appended to the handler's `receiver` queue. The channel is FIFO, and the task
  does not depend on the consumer, so the consumer sees the same messages in the same
  order.
- **Timing.** The 1000 ms timeout becomes the input `arrives`. When it is false, nothing
  is taken from the queue. A closed channel is an empty queue.
- **Parsing.** `StreamResponse::parse` is not modelled. Each stream item carries the result
  of parsing it (`Decoded(Some(t))` or `Decoded(None)`), or is `DecodeErr`.
- **Notifications.** Whether submitting a notification succeeds is the input `notifyOk`.
  Submitted notifications are logged in a ghost field.
- **Send failures.** A receiving end that is dropped part-way is the input
  `accepted: Option<nat>` of the task: the number of messages the receiving end takes
  before it is dropped.

The model follows the code where its behaviour is easy to misread:

- A chunk that fails to decode is not skipped. The `while let Some(Ok(..))` at line 210
  stops matching, so the poller returns `Ok(None)` and the task sends `Finished`.
  `StreamEmitsTokensThenFinished` shows that such a failure ends the completion.
- A non-recoverable provider error does not end the task. Lines 186-195 send it and poll
  again, like a recoverable one; only a failed send stops the loop there.
  `ErrorDoesNotEndProducer` states this for both kinds of error.
- The poller shown never returns an error. So on a real stream the task sends only
  `Working` and `Finished` (`StreamEmitsTokensThenFinished`). The error branch is still
  modelled: `Emitted` is defined over any sequence of poll outcomes.

## Model

| member | source | states |
|---|---|---|
| `StreamPoller.Poll` | src/environment/agent/language_models/openai/gpt/streaming_utils.rs:207-216 | a poll never fails; it yields text only when the next item decodes to a delta, yields exactly that item's parsed delta when it decodes, and yields `Ok(None)` on an exhausted stream or a decode failure |
| `StreamPoller.StreamOutcomes` | src/environment/agent/language_models/openai/gpt/streaming_utils.rs:210-215 | successive polls of a stream give one outcome per item |
| `StreamPoller.PollAfterConsuming` | src/environment/agent/language_models/openai/gpt/streaming_utils.rs:207-216 | the poll made after k items were consumed returns the k-th stream outcome (`Ok(None)` past the end), never an error |
| `StreamPoller.CompletionStream.constructor` | src/environment/agent/language_models/openai/gpt/streaming_utils.rs:15-16 | a new stream holds exactly the given items |
| `StreamPoller.CompletionStream.Next` | src/environment/agent/language_models/openai/gpt/streaming_utils.rs:210 | `next()` yields the first remaining item and removes it, or yields nothing on an exhausted stream and leaves it so |
| `StreamPoller.CompletionStreamingThread.PollStreamForTokens` | src/environment/agent/language_models/openai/gpt/streaming_utils.rs:205-216 | returns `Poll` of the stream before the call, and consumes exactly one item unless the stream was exhausted |
| `CompletionProducer.ClassifyGptError` | src/environment/agent/language_models/openai/gpt/streaming_utils.rs:186-190 | a provider error becomes `RetryError` exactly when it is `Recoverable`; any other error is wrapped unchanged as `GptError`; it is never `Undefined` |
| `CompletionProducer.StatusFor` | src/environment/agent/language_models/openai/gpt/streaming_utils.rs:168-171 | the status is `Finished` exactly when no token was polled, and otherwise `Working` with the polled token |
| `CompletionProducer.MessageFor` | src/environment/agent/language_models/openai/gpt/streaming_utils.rs:166-190 | the message is `Ok` exactly when the poll succeeded; it is `Ok(Finished)` exactly for `Ok(None)` and `Ok(Working(t))` for `Ok(Some(t))`; a failed poll gives its classified error |
| `CompletionProducer.Emitted` | src/environment/agent/language_models/openai/gpt/streaming_utils.rs:164-197 | when every send succeeds, the task sends at least one and at most one more message than polls, and its last message is `Ok(Finished)` |
| `CompletionProducer.EmittedAt` | src/environment/agent/language_models/openai/gpt/streaming_utils.rs:166-184 | the k-th message sent is the translation of the k-th poll (poll order is kept), and every message before the last answers a poll that did not end the stream |
| `CompletionProducer.FinishedIsLast` | src/environment/agent/language_models/openai/gpt/streaming_utils.rs:174-184 | `Finished` is sent exactly once and nothing follows it |
| `CompletionProducer.ErrorDoesNotEndProducer` | src/environment/agent/language_models/openai/gpt/streaming_utils.rs:186-195 | an error poll, recoverable or not, inserted before the end of the stream adds only its classified error at that position; the task keeps polling and everything else it sends is unchanged |
| `CompletionProducer.LeadingTokens` | src/environment/agent/language_models/openai/gpt/streaming_utils.rs:210-213 | the tokens delivered from a stream are the deltas of its leading run of chunks that decode to a delta, in order; the run stops at the end of the stream or at the first item that is a decode failure or carries no delta |
| `CompletionProducer.Workings` | src/environment/agent/language_models/openai/gpt/streaming_utils.rs:169 | one `Ok(Working(t))` per token, in order |
| `CompletionProducer.StreamEmitsTokensThenFinished` | src/environment/agent/language_models/openai/gpt/streaming_utils.rs:164-216 | on a real stream the task sends `Working(t)` for each leading delta, in stream order, then `Finished`, and never an error; a decode failure or a delta-less chunk ends the completion |
| `CompletionProducer.ProducerOnStream` | src/environment/agent/language_models/openai/gpt/streaming_utils.rs:178-198 | on a real stream the task ends with `Err` exactly when the receiving end is dropped before `Finished` is sent; what it sent is then a prefix of the full run, and otherwise it is the full run |
| `CompletionProducer.Produced` | src/environment/agent/language_models/openai/gpt/streaming_utils.rs:178-195 | for any poll outcomes, what is sent is a prefix of `Emitted`: all of it when the receiving end outlives the task, else the first `accepted` messages; the task ends with `Err(Undefined(SendFailed))` exactly when the failed send held an `Ok` status, and with `Ok` when it held an error or no send failed |
| `CompletionProducer.RunProducer` | src/environment/agent/language_models/openai/gpt/streaming_utils.rs:162-199 | the loop sends exactly what `Produced` says for the stream's poll outcomes: `Emitted` in full, or cut at the first failed send, ending with `Err` if that send held a status and with `Ok` if it held an error |
| `CompletionHandler.Spawned` | src/environment/agent/language_models/openai/gpt/streaming_utils.rs:158-201 | spawning empties both slots, appends the task's whole output to the channel, and touches neither the text nor the notifications |
| `CompletionHandler.ReceiveStep` | src/environment/agent/language_models/openai/gpt/streaming_utils.rs:112-155 | slots: after a call both are empty, and the task is never started when either was already absent. No message (timeout or closed channel): returns nothing and changes nothing. Otherwise exactly the oldest pending message is consumed. An error returns nothing and changes nothing. `Working(t)` returns it and appends `t`. `Finished` submits one `PushToCache` with the agent id and the whole text, returns `Finished` exactly when the submission succeeds, and keeps the text. Notifications plus pending `Finished` stay constant |
| `CompletionHandler.Drive` | src/environment/agent/language_models/openai/gpt/streaming_utils.rs:109-110 | the caller's loop of `receive` calls gives one result per call; after any non-empty run of calls both slots are empty (the task was started), and a handler missing either slot never starts it |
| `CompletionHandler.DriveOnlyConsumes` | src/environment/agent/language_models/openai/gpt/streaming_utils.rs:117-125 | over any run of calls, messages are consumed from the front only, and none is duplicated or lost; so the task's output reaches the channel once (spawn happens at most once) |
| `CompletionHandler.DriveOnlyAppends` | src/environment/agent/language_models/openai/gpt/streaming_utils.rs:128-131 | the accumulated text only ever grows, by appending |
| `CompletionHandler.DriveKeepsNotificationBudget` | src/environment/agent/language_models/openai/gpt/streaming_utils.rs:132-150 | over any run of calls, notifications submitted plus `Finished` still to be received stay constant |
| `CompletionHandler.AtMostOneNotification` | src/environment/agent/language_models/openai/gpt/streaming_utils.rs:132-150 | a handler built on a fresh channel submits at most one notification in its whole life |
| `CompletionHandler.TimeoutLosesNothing` | src/environment/agent/language_models/openai/gpt/streaming_utils.rs:121-125 | a call that times out changes nothing a later call could observe: that later call behaves as if the timed-out call had not happened |
| `CompletionHandler.Announced` | src/environment/agent/language_models/openai/gpt/streaming_utils.rs:128-131 | one `Some(Working(t))` per token, in order |
| `CompletionHandler.DrainQueued` | src/environment/agent/language_models/openai/gpt/streaming_utils.rs:128-150 | receiving queued `Working` messages and then `Finished`, with every call served: the caller sees each token in order and then `Finished`; the text grows by the tokens' concatenation; one notification carries the full text; the queue ends empty |
| `CompletionHandler.CompletionReachesCaller` | src/environment/agent/language_models/openai/gpt/streaming_utils.rs:112-155 | for a fresh handler over a stream with leading deltas `ts`, the caller sees `Working(t)` for each `t` in order and then `Finished`; the accumulated text is their concatenation; exactly one notification is submitted, and it carries that text |
| `CompletionHandler.StreamedCompletionHandler.From` | src/environment/agent/language_models/openai/gpt/streaming_utils.rs:89-102 | a new handler has both slots present, the given receiver, empty text, no notifications, and has not spawned |
| `CompletionHandler.StreamedCompletionHandler.Receive` | src/environment/agent/language_models/openai/gpt/streaming_utils.rs:112-155 | the new state and the result are exactly `ReceiveStep` of the old state; afterwards the task has been spawned exactly once |
| `CompletionHandler.StreamedCompletionHandler.Spawn` | src/environment/agent/language_models/openai/gpt/streaming_utils.rs:157-202 | needs both slots present (`spawn` unwraps them at lines 159-160); empties both, runs the task into the channel as `Spawned` says, counts one spawn, and returns `Ok(())` |

## Left out

- Concurrency is not modelled: tokio task spawning, the channel's capacity and backpressure, and the `JoinHandle`. The task runs to completion at spawn time. The task's final result is computed and then discarded, as the dropped `JoinHandle` discards it.
- Wall-clock time is not modelled: the 1000 ms `tokio::time::timeout` becomes the `arrives` input.
- `StreamResponse::parse`, the `StreamResponse`/`StreamChoice`/`StreamDelta` records and their serde derives are not modelled. Their effect is carried in each stream item.
- `Message::new_assistant` is not modelled. The notification holds the accumulated text it is built from.
- `EnvRequest`/`EnvMessageSender` and the mutex around it are not modelled. Whether a submission succeeds is the `notifyOk` input, and only `PushToCache` is represented.
- `GptError` is reduced to `Recoverable` versus `Unrecoverable(cause)`. Its other variants are defined outside this file.
- The `Debug`/`Display` implementations and `error_chain_fmt` are not modelled: they only format output. `tracing` instrumentation and logging are left out too.
- The text inside `Undefined` errors is modelled only for the producer's failed send, as the debug text of tokio's `SendError`. The consumer-side `Undefined` values (timeout, failed submission) are discarded by `.ok()?` in `receive`, so the model returns `None` without building them.
- CompletionHandler.StreamedCompletionHandler.Spawn: the `?` after `spawn()` at line 118 is not modelled as an early return. `spawn` always returns `Ok(())`, which its contract states.
