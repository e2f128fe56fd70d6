/** The background task started by `spawn`: it polls the stream, turns each poll
    outcome into a status or an error, and sends it over the channel until it has
    sent `Finished` or a send fails. */
module CompletionProducer {
  import opened StreamingTypes
  import opened StreamPoller

  /** The text of the error the task ends with when an `Ok` status cannot be sent:
      the debug rendering of tokio's `SendError`. */
  const SendFailed: string := "SendError { .. }"

  /** A provider error as the task sends it: a recoverable one becomes `RetryError`,
      any other is wrapped unchanged. */
  function ClassifyGptError(err: GptError): (e: StreamError)
    ensures e.RetryError? <==> err.Recoverable?
    ensures !e.Undefined?
    ensures e.GptError? ==> e.err == err
  {
    match err
    case Recoverable => RetryError
    case Unrecoverable(_) => GptError(err)
  }

  /** A polled text becomes `Working`; the end of the stream becomes `Finished`. */
  function StatusFor(token: Option<string>): (s: CompletionStreamStatus)
    ensures s.Finished? <==> token.None?
    ensures s.Working? ==> token == Some(s.token)
  {
    match token
    case Some(t) => Working(t)
    case None => Finished
  }

  /** The message the task tries to send for one poll outcome. */
  function MessageFor(polled: PollResult): (m: Message)
    ensures m.Ok? <==> polled.Ok?
    ensures m == Ok(Finished) <==> polled == Ok(None)
    ensures polled.Ok? && polled.value.Some? ==> m == Ok(Working(polled.value.value))
    ensures polled.Err? ==> m == Err(ClassifyGptError(polled.error))
  {
    match polled
    case Ok(token) => Ok(StatusFor(token))
    case Err(err) => Err(ClassifyGptError(err))
  }

  /** Everything the task sends when every send succeeds and its successive polls
      return `polls` (an exhausted `polls` reads as `Ok(None)`): one message per
      poll, up to and including the `Finished` that ends it. */
  function Emitted(polls: seq<PollResult>): (sent: seq<Message>)
    ensures 1 <= |sent| <= |polls| + 1
    ensures sent[|sent| - 1] == Ok(Finished)
    decreases |polls|
  {
    if polls == [] || polls[0] == Ok(None) then [Ok(Finished)]
    else [MessageFor(polls[0])] + Emitted(polls[1..])
  }

  /** How many `Finished` statuses a run of messages holds. */
  function FinishedCount(ms: seq<Message>): nat
    decreases |ms|
  {
    if ms == [] then 0
    else (if ms[0] == Ok(Finished) then 1 else 0) + FinishedCount(ms[1..])
  }

  /** What one run of the task sends and how it ends. */
  datatype ProducerRun = ProducerRun(sent: seq<Message>, result: Result<(), StreamError>)

  /** A run of the task whose receiving end takes `accepted` messages before it is
      dropped (`None`: it is never dropped while the task runs). The first failed
      send ends the task: with an error if it was a status, normally if it was an
      error. */
  function Produced(polls: seq<PollResult>, accepted: Option<nat>): (r: ProducerRun)
    ensures |r.sent| <= |Emitted(polls)| && r.sent == Emitted(polls)[..|r.sent|]
    ensures accepted.None? ==> r.sent == Emitted(polls)
    ensures accepted.Some? ==> |r.sent| == if |Emitted(polls)| <= accepted.value then |Emitted(polls)| else accepted.value
    ensures r.result.Err? <==>
      accepted.Some? && accepted.value < |Emitted(polls)| && Emitted(polls)[accepted.value].Ok?
    ensures r.result.Err? ==> r.result.error == Undefined(SendFailed)
  {
    var all := Emitted(polls);
    if accepted.None? || |all| <= accepted.value then ProducerRun(all, Ok(()))
    else ProducerRun(all[..accepted.value],
                     if all[accepted.value].Ok? then Err(Undefined(SendFailed)) else Ok(()))
  }

  /** The k-th message sent answers the k-th poll, and every message before the
      last answers a poll that did not end the stream. */
  lemma {:induction false} EmittedAt(polls: seq<PollResult>, k: nat)
    requires k < |Emitted(polls)|
    ensures Emitted(polls)[k] == MessageFor(PollAt(polls, k))
    ensures k < |Emitted(polls)| - 1 ==> k < |polls| && polls[k] != Ok(None)
    decreases k
  {
    if k > 0 {
      EmittedAt(polls[1..], k - 1);
    }
  }

  /** `Finished` is sent once, as the last message: nothing follows it. */
  lemma {:induction false} FinishedIsLast(polls: seq<PollResult>)
    ensures forall k :: 0 <= k < |Emitted(polls)| - 1 ==> Emitted(polls)[k] != Ok(Finished)
    ensures FinishedCount(Emitted(polls)) == 1
  {
    forall k | 0 <= k < |Emitted(polls)| - 1
      ensures Emitted(polls)[k] != Ok(Finished)
    {
      EmittedAt(polls, k);
    }
    FinishedCountOfEmitted(polls);
  }

  /** Helper for `FinishedIsLast`: counts the `Finished` in a run by induction. */
  lemma {:induction false} FinishedCountOfEmitted(polls: seq<PollResult>)
    ensures FinishedCount(Emitted(polls)) == 1
    decreases |polls|
  {
    if polls == [] || polls[0] == Ok(None) {
      assert FinishedCount([Ok(Finished)][1..]) == 0;
    } else {
      FinishedCountOfEmitted(polls[1..]);
      assert Emitted(polls)[1..] == Emitted(polls[1..]);
    }
  }

  /** An error poll, of either kind, does not stop the task: its classified error
      is sent in its place and the polls after it are sent exactly as before. */
  lemma {:induction false} ErrorDoesNotEndProducer(polls: seq<PollResult>, j: nat, err: GptError)
    requires j <= |polls|
    requires forall k :: 0 <= k < j ==> polls[k] != Ok(None)
    ensures j < |Emitted(polls)|
    ensures Emitted(polls[..j] + [Err(err)] + polls[j..])
         == Emitted(polls)[..j] + [Err(ClassifyGptError(err))] + Emitted(polls)[j..]
    decreases j
  {
    var with := polls[..j] + [Err(err)] + polls[j..];
    var sentErr: Message := Err(ClassifyGptError(err));
    var all := Emitted(polls);
    if j == 0 {
      assert with == [Err(err)] + polls;
      assert with[1..] == polls;
      assert Emitted(with) == [sentErr] + all;
      assert all[..0] + [sentErr] + all[0..] == [sentErr] + all;
    } else {
      var rest := polls[1..];
      ErrorDoesNotEndProducer(rest, j - 1, err);
      assert with[1..] == rest[..j - 1] + [Err(err)] + rest[j - 1..];
      EmittedCons(polls);
      EmittedCons(with);
      SpliceCons(MessageFor(polls[0]), Emitted(rest), j - 1, sentErr);
    }
  }

  /** Helper: a poll that does not end the stream is answered first, then the rest. */
  lemma EmittedCons(polls: seq<PollResult>)
    requires polls != [] && polls[0] != Ok(None)
    ensures Emitted(polls) == [MessageFor(polls[0])] + Emitted(polls[1..])
  {
  }

  /** Helper: inserting after position `j` of a tail is inserting after `j + 1` of
      the whole. */
  lemma SpliceCons(m: Message, tail: seq<Message>, j: nat, x: Message)
    requires j <= |tail|
    ensures [m] + (tail[..j] + [x] + tail[j..]) == ([m] + tail)[..j + 1] + [x] + ([m] + tail)[j + 1..]
  {
    assert ([m] + tail)[..j + 1] == [m] + tail[..j];
    assert ([m] + tail)[j + 1..] == tail[j..];
  }

  /** The texts of the leading run of chunks that decode to a delta; the first decode
      failure, delta-less chunk or the end of the stream ends it. */
  function LeadingTokens(items: seq<StreamItem>): (ts: seq<string>)
    ensures |ts| <= |items|
    ensures forall i :: 0 <= i < |ts| ==> items[i] == Decoded(Some(ts[i]))
    ensures |ts| < |items| ==> !(items[|ts|].Decoded? && items[|ts|].parsed.Some?)
    decreases |items|
  {
    if items == [] then []
    else match items[0]
      case Decoded(Some(t)) => [t] + LeadingTokens(items[1..])
      case _ => []
  }

  /** One `Working` message per token, in order. */
  function Workings(ts: seq<string>): (ms: seq<Message>)
    ensures |ms| == |ts|
    ensures forall i :: 0 <= i < |ts| ==> ms[i] == Ok(Working(ts[i]))
  {
    seq(|ts|, i requires 0 <= i < |ts| => Ok(Working(ts[i])))
  }

  /** On a real chunk stream the task sends one `Working` per leading delta, in
      stream order, then `Finished`, and never an error: a decode failure or a
      delta-less chunk ends the completion just as the end of the stream does. */
  lemma {:induction false} StreamEmitsTokensThenFinished(items: seq<StreamItem>)
    ensures Emitted(StreamOutcomes(items)) == Workings(LeadingTokens(items)) + [Ok(Finished)]
    decreases |items|
  {
    if items == [] || !(items[0].Decoded? && items[0].parsed.Some?) {
      StreamStops(items);
      assert LeadingTokens(items) == [] && Workings([]) == [];
    } else {
      var t := items[0].parsed.value;
      StreamContinues(items);
      StreamEmitsTokensThenFinished(items[1..]);
      LeadingTokensCons(items);
      WorkingsCons(t, LeadingTokens(items[1..]));
    }
  }

  /** Helper: a chunk with a delta heads the leading run. */
  lemma LeadingTokensCons(items: seq<StreamItem>)
    requires items != [] && items[0].Decoded? && items[0].parsed.Some?
    ensures LeadingTokens(items) == [items[0].parsed.value] + LeadingTokens(items[1..])
  {
  }

  /** Helper: prepending a token prepends its `Working` message to the run. */
  lemma WorkingsCons(t: string, rest: seq<string>)
    ensures Workings([t] + rest) + [Ok(Finished)] == [Ok(Working(t))] + (Workings(rest) + [Ok(Finished)])
  {
    assert Workings([t] + rest) == [Ok(Working(t))] + Workings(rest);
  }

  /** Helper: an exhausted stream, a decode failure or a delta-less chunk ends the run. */
  lemma StreamStops(items: seq<StreamItem>)
    requires items == [] || !(items[0].Decoded? && items[0].parsed.Some?)
    ensures Emitted(StreamOutcomes(items)) == [Ok(Finished)]
  {
    if items != [] {
      assert StreamOutcomes(items)[0] == Ok(None);
    }
  }

  /** Helper: a chunk with a delta is sent as `Working` and the run goes on. */
  lemma StreamContinues(items: seq<StreamItem>)
    requires items != [] && items[0].Decoded? && items[0].parsed.Some?
    ensures Emitted(StreamOutcomes(items))
         == [Ok(Working(items[0].parsed.value))] + Emitted(StreamOutcomes(items[1..]))
  {
    var polls := StreamOutcomes(items);
    assert polls[0] == Ok(items[0].parsed);
    assert polls[1..] == StreamOutcomes(items[1..]);
  }

  /** On a real chunk stream the task ends with an error exactly when its receiving
      end is dropped before `Finished` is sent, and what it did send is a prefix of
      the full run. */
  lemma ProducerOnStream(items: seq<StreamItem>, accepted: Option<nat>)
    ensures var run := Produced(StreamOutcomes(items), accepted);
            var full := Workings(LeadingTokens(items)) + [Ok(Finished)];
            && (run.result.Err? <==> accepted.Some? && accepted.value <= |LeadingTokens(items)|)
            && (run.result.Err? ==> run.result.error == Undefined(SendFailed))
            && |run.sent| <= |full| && run.sent == full[..|run.sent|]
            && (run.result.Ok? ==> run.sent == full)
  {
    StreamEmitsTokensThenFinished(items);
  }

  /** The task's loop (`spawn`, lines 164-197 of the Rust code). Each iteration polls
      the stream once and tries to send the resulting message; it stops after
      sending `Finished`, and when a send fails (the receiving end was dropped)
      it ends with an error for a status and normally for an error. */
  method RunProducer(stream: CompletionStream, accepted: Option<nat>)
    returns (sent: seq<Message>, result: Result<(), StreamError>)
    modifies stream
    ensures ProducerRun(sent, result) == Produced(StreamOutcomes(old(stream.pending)), accepted)
  {
    ghost var items := stream.pending;
    ghost var polls := StreamOutcomes(items);
    ghost var all := Emitted(polls);
    sent := [];
    while true
      invariant |sent| < |all| && sent == all[..|sent|]
      invariant |sent| <= |items| && stream.pending == items[|sent|..]
      invariant accepted.Some? ==> |sent| <= accepted.value
      decreases |all| - |sent|
    {
      var polled := CompletionStreamingThread.PollStreamForTokens(stream);
      PollAfterConsuming(items, |sent|);
      EmittedAt(polls, |sent|);
      var message := MessageFor(polled);
      if accepted.Some? && |sent| == accepted.value {
        if message.Ok? {
          return sent, Err(Undefined(SendFailed));
        }
        break;
      }
      sent := sent + [message];
      if message == Ok(Finished) {
        break;
      }
    }
    result := Ok(());
  }
}
