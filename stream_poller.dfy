/** The stream poller: pulls the next text delta out of the chunk stream. */
module StreamPoller {
  import opened StreamingTypes

  /** The text a stream item contributes when polled: the parsed delta of a chunk
      that decoded, and nothing for a decode failure. */
  function ParsedOf(item: StreamItem): Option<string>
  {
    match item
    case Decoded(parsed) => parsed
    case DecodeErr => None
  }

  /** What the poller returns on a stream whose remaining items are `items`.
      It never fails, and it yields text only when the next item decodes. */
  function Poll(items: seq<StreamItem>): (r: PollResult)
    ensures r.Ok?
    ensures r.value.Some? ==> items != [] && items[0] == Decoded(r.value)
    ensures items != [] && items[0].Decoded? ==> r.value == items[0].parsed
    ensures items == [] || items[0] == DecodeErr ==> r == Ok(None)
  {
    if items == [] then Ok(None) else Ok(ParsedOf(items[0]))
  }

  /** The outcome of each successive poll of a stream holding `items`, one per item;
      every poll after the last item returns `Ok(None)`. */
  function StreamOutcomes(items: seq<StreamItem>): (polls: seq<PollResult>)
    ensures |polls| == |items|
  {
    seq(|items|, k requires 0 <= k < |items| => Ok(ParsedOf(items[k])))
  }

  /** The k-th poll outcome, reading past the end as an exhausted stream. */
  function PollAt(polls: seq<PollResult>, k: nat): PollResult
  {
    if k < |polls| then polls[k] else Ok(None)
  }

  /** The (k+1)-th call of the poller, made after k items have been consumed,
      returns the k-th entry of `StreamOutcomes`; no poll ever fails. */
  lemma PollAfterConsuming(items: seq<StreamItem>, k: nat)
    requires k <= |items|
    ensures Poll(items[k..]) == PollAt(StreamOutcomes(items), k)
    ensures PollAt(StreamOutcomes(items), k).Ok?
  {
  }

  /** The raw chunk stream: a cursor over the items not yet consumed. */
  class CompletionStream {
    var pending: seq<StreamItem>

    constructor (items: seq<StreamItem>)
      ensures pending == items
    {
      pending := items;
    }

    /** Takes the next item, if any. */
    method Next() returns (item: Option<StreamItem>)
      modifies this
      ensures old(pending) == [] ==> item == None && pending == []
      ensures old(pending) != [] ==> item == Some(old(pending)[0]) && pending == old(pending)[1..]
    {
      if pending == [] {
        item := None;
      } else {
        item := Some(pending[0]);
        pending := pending[1..];
      }
    }
  }

  class CompletionStreamingThread {

    /** Advances the stream by at most one item. The `while let` of
        `poll_stream_for_tokens` returns from its first iteration, so it reads as a
        single test: a chunk that decodes gives its parsed delta, and an exhausted
        stream or a decode failure both give `Ok(None)`. */
    static method PollStreamForTokens(stream: CompletionStream) returns (r: PollResult)
      modifies stream
      ensures r == Poll(old(stream.pending))
      ensures stream.pending == if old(stream.pending) == [] then [] else old(stream.pending)[1..]
    {
      var next := stream.Next();
      if next.Some? && next.value.Decoded? {
        return Ok(next.value.parsed);
      }
      return Ok(None);
    }
  }
}
