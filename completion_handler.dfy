/** The streamed completion handler: it owns the chunk stream and the sending end
    of the channel until its first `receive` hands both to the background task,
    then serves one channel message per `receive`, accumulating the text and
    notifying the messaging subsystem when the completion finishes. */
module CompletionHandler {
  import opened StreamingTypes
  import opened StreamPoller
  import opened CompletionProducer

  /** The handler's state as a value: the two take-once slots, the messages waiting
      in the channel, the accumulated text, and the notifications submitted so far. */
  datatype HandlerState = HandlerState(
    stream: Option<seq<StreamItem>>,
    sender: Option<CompletionStreamSender>,
    receiver: seq<Message>,
    messageContent: string,
    notifications: seq<EnvRequest>)

  /** A freshly built handler: both slots filled, nothing accumulated or sent. */
  function FromParts(items: seq<StreamItem>, sender: CompletionStreamSender, receiver: seq<Message>): HandlerState
  {
    HandlerState(Some(items), Some(sender), receiver, "", [])
  }

  /** Whether `receive` still has to start the background task. */
  predicate Unspawned(h: HandlerState)
  {
    h.stream.Some? && h.sender.Some?
  }

  /** The state once `spawn` has taken both slots and the task's messages are in
      the channel (the task sends into a receiver that this handler keeps alive). */
  function Spawned(h: HandlerState): (s: HandlerState)
    requires Unspawned(h)
    ensures s.stream.None? && s.sender.None?
    ensures s.receiver == h.receiver + Emitted(StreamOutcomes(h.stream.value))
    ensures s.messageContent == h.messageContent && s.notifications == h.notifications
  {
    h.(stream := None, sender := None,
       receiver := h.receiver + Produced(StreamOutcomes(h.stream.value), None).sent)
  }

  /** Every message the consumer can still receive, whether already in the channel
      or still to be sent by a task not yet started. */
  function Pending(h: HandlerState): seq<Message>
  {
    h.receiver + (if Unspawned(h) then Emitted(StreamOutcomes(h.stream.value)) else [])
  }

  /** One call of `receive`. `arrives` says whether the next message, if there is
      one, arrives within the timeout; `notifyOk` whether submitting the
      notification succeeds. */
  function ReceiveStep(h: HandlerState, agentId: string, arrives: bool, notifyOk: bool)
    : (r: (HandlerState, Option<CompletionStreamStatus>))
    // the task is started by the first call, and never again
    ensures (h.stream.Some? <==> h.sender.Some?) ==> r.0.stream.None? && r.0.sender.None?
    ensures !Unspawned(h) ==> r.0.stream == h.stream && r.0.sender == h.sender
    // nothing arrives: nothing is lost, changed or reported
    ensures !arrives || Pending(h) == [] ==>
      && r.1 == None && Pending(r.0) == Pending(h)
      && r.0.messageContent == h.messageContent && r.0.notifications == h.notifications
    // otherwise exactly the oldest pending message is consumed
    ensures arrives && Pending(h) != [] ==> Pending(r.0) == Pending(h)[1..]
    ensures arrives && Pending(h) != [] && Pending(h)[0].Err? ==>
      && r.1 == None
      && r.0.messageContent == h.messageContent && r.0.notifications == h.notifications
    ensures arrives && Pending(h) != [] && Pending(h)[0].Ok? && Pending(h)[0].value.Working? ==>
      && r.1 == Some(Pending(h)[0].value)
      && r.0.messageContent == h.messageContent + Pending(h)[0].value.token
      && r.0.notifications == h.notifications
    ensures arrives && Pending(h) != [] && Pending(h)[0] == Ok(Finished) ==>
      && r.0.messageContent == h.messageContent
      && r.0.notifications == h.notifications + [PushToCache(agentId, h.messageContent)]
      && (r.1 == Some(Finished) <==> notifyOk)
      && (r.1 == None <==> !notifyOk)
    // a notification is submitted only in exchange for a `Finished`
    ensures |r.0.notifications| + FinishedCount(Pending(r.0))
         == |h.notifications| + FinishedCount(Pending(h))
  {
    var started := if Unspawned(h) then Spawned(h) else h;
    if started.receiver == [] || !arrives then (started, None)
    else
      var next := started.receiver[0];
      var taken := started.(receiver := started.receiver[1..]);
      match next
      case Err(_) => (taken, None)
      case Ok(Working(token)) =>
        (taken.(messageContent := taken.messageContent + token), Some(Working(token)))
      case Ok(Finished) =>
        (taken.(notifications := taken.notifications + [PushToCache(agentId, taken.messageContent)]),
         if notifyOk then Some(Finished) else None)
  }

  /** The circumstances of one `receive` call. */
  datatype Conditions = Conditions(arrives: bool, notifyOk: bool)

  /** The caller's loop: `receive` called once per entry of `calls`, in order. */
  function Drive(h: HandlerState, agentId: string, calls: seq<Conditions>)
    : (r: (HandlerState, seq<Option<CompletionStreamStatus>>))
    ensures |r.1| == |calls|
    ensures calls != [] && (h.stream.Some? <==> h.sender.Some?) ==> r.0.stream.None? && r.0.sender.None?
    ensures !Unspawned(h) ==> r.0.stream == h.stream && r.0.sender == h.sender
    decreases |calls|
  {
    if calls == [] then (h, [])
    else
      var step := ReceiveStep(h, agentId, calls[0].arrives, calls[0].notifyOk);
      var rest := Drive(step.0, agentId, calls[1..]);
      (rest.0, [step.1] + rest.1)
  }

  predicate IsSuffix(a: seq<Message>, b: seq<Message>)
  {
    |a| <= |b| && a == b[|b| - |a|..]
  }

  /** However the calls go, messages are consumed from the front only, each at most
      once: the task's output is added to the channel once, never again. */
  lemma {:induction false} DriveOnlyConsumes(h: HandlerState, agentId: string, calls: seq<Conditions>)
    ensures IsSuffix(Pending(Drive(h, agentId, calls).0), Pending(h))
    decreases |calls|
  {
    if calls != [] {
      var step := ReceiveStep(h, agentId, calls[0].arrives, calls[0].notifyOk);
      DriveOnlyConsumes(step.0, agentId, calls[1..]);
      var a, b, c := Pending(h), Pending(step.0), Pending(Drive(h, agentId, calls).0);
      assert b == a || b == a[1..];
      assert c == b[|b| - |c|..];
    }
  }

  /** The accumulated text only ever grows, by appending. */
  lemma {:induction false} DriveOnlyAppends(h: HandlerState, agentId: string, calls: seq<Conditions>)
    ensures h.messageContent <= Drive(h, agentId, calls).0.messageContent
    decreases |calls|
  {
    if calls != [] {
      var step := ReceiveStep(h, agentId, calls[0].arrives, calls[0].notifyOk);
      DriveOnlyAppends(step.0, agentId, calls[1..]);
    }
  }

  /** Notifications submitted plus `Finished` statuses still to be received stay
      constant over any run of calls. */
  lemma {:induction false} DriveKeepsNotificationBudget(h: HandlerState, agentId: string, calls: seq<Conditions>)
    ensures var e := Drive(h, agentId, calls).0;
            |e.notifications| + FinishedCount(Pending(e)) == |h.notifications| + FinishedCount(Pending(h))
    decreases |calls|
  {
    if calls != [] {
      var step := ReceiveStep(h, agentId, calls[0].arrives, calls[0].notifyOk);
      DriveKeepsNotificationBudget(step.0, agentId, calls[1..]);
    }
  }

  /** Over the whole life of a handler built on a fresh channel, at most one
      notification is ever submitted. */
  lemma AtMostOneNotification(items: seq<StreamItem>, sender: CompletionStreamSender,
                              agentId: string, calls: seq<Conditions>)
    ensures |Drive(FromParts(items, sender, []), agentId, calls).0.notifications| <= 1
  {
    var h := FromParts(items, sender, []);
    DriveKeepsNotificationBudget(h, agentId, calls);
    FinishedIsLast(StreamOutcomes(items));
    assert Pending(h) == Emitted(StreamOutcomes(items));
  }

  /** A timeout consumes nothing: the next call that gets a message gets the same
      one, with the same effect, as if the timed-out call had not happened. */
  lemma TimeoutLosesNothing(h: HandlerState, agentId: string, notifyOk: bool, laterOk: bool)
    ensures var waited := ReceiveStep(h, agentId, false, notifyOk).0;
            ReceiveStep(waited, agentId, true, laterOk) == ReceiveStep(h, agentId, true, laterOk)
  {
  }

  /** The caller sees one `Working` per token, in order. */
  function Announced(ts: seq<string>): (outs: seq<Option<CompletionStreamStatus>>)
    ensures |outs| == |ts|
    ensures forall i :: 0 <= i < |ts| ==> outs[i] == Some(Working(ts[i]))
  {
    seq(|ts|, i requires 0 <= i < |ts| => Some(Working(ts[i])))
  }

  /** The tokens joined in order. */
  function Concat(ts: seq<string>): string
    decreases |ts|
  {
    if ts == [] then "" else ts[0] + Concat(ts[1..])
  }

  /** Receiving a queue of `Working` messages followed by `Finished`, every call
      getting a message and the notification succeeding. */
  lemma {:induction false} DrainQueued(h: HandlerState, agentId: string, ts: seq<string>, calls: seq<Conditions>)
    requires h.stream.None? && h.sender.None?
    requires h.receiver == Workings(ts) + [Ok(Finished)]
    requires |calls| == |ts| + 1
    requires forall i :: 0 <= i < |calls| ==> calls[i] == Conditions(true, true)
    ensures var r := Drive(h, agentId, calls);
            && r.1 == Announced(ts) + [Some(Finished)]
            && r.0.messageContent == h.messageContent + Concat(ts)
            && r.0.notifications == h.notifications + [PushToCache(agentId, h.messageContent + Concat(ts))]
            && r.0.receiver == []
    decreases |ts|
  {
    var step := ReceiveStep(h, agentId, true, true);
    if ts == [] {
      assert calls[0] == Conditions(true, true) && calls[1..] == [];
    } else {
      assert calls[0] == Conditions(true, true);
      assert h.receiver[0] == Ok(Working(ts[0]));
      assert step.0.receiver == Workings(ts[1..]) + [Ok(Finished)];
      DrainQueued(step.0, agentId, ts[1..], calls[1..]);
      assert step.0.messageContent + Concat(ts[1..]) == h.messageContent + Concat(ts);
      assert [Some(Working(ts[0]))] + (Announced(ts[1..]) + [Some(Finished)])
          == Announced(ts) + [Some(Finished)];
    }
  }

  /** A whole completion as the caller sees it: on a stream whose leading chunks
      carry the deltas `ts`, a fresh handler reports `Working(t)` for each of them
      in order and then `Finished`, having accumulated their concatenation and
      submitted exactly one notification carrying it. */
  lemma CompletionReachesCaller(items: seq<StreamItem>, sender: CompletionStreamSender,
                                agentId: string, calls: seq<Conditions>)
    requires |calls| == |LeadingTokens(items)| + 1
    requires forall i :: 0 <= i < |calls| ==> calls[i] == Conditions(true, true)
    ensures var ts := LeadingTokens(items);
            var r := Drive(FromParts(items, sender, []), agentId, calls);
            && r.1 == Announced(ts) + [Some(Finished)]
            && r.0.messageContent == Concat(ts)
            && r.0.notifications == [PushToCache(agentId, Concat(ts))]
  {
    var h := FromParts(items, sender, []);
    StreamEmitsTokensThenFinished(items);
    DriveStartsTask(h, agentId, calls);
    DrainQueued(Spawned(h), agentId, LeadingTokens(items), calls);
  }

  /** Helper: the first call starts the task before anything else, so a run from an
      unstarted handler is the run from the started one. */
  lemma DriveStartsTask(h: HandlerState, agentId: string, calls: seq<Conditions>)
    requires Unspawned(h) && calls != []
    ensures Drive(h, agentId, calls) == Drive(Spawned(h), agentId, calls)
  {
    var c := calls[0];
    assert ReceiveStep(h, agentId, c.arrives, c.notifyOk) == ReceiveStep(Spawned(h), agentId, c.arrives, c.notifyOk);
  }

  /** The handler itself. `stream` and `sender` are the take-once slots (an absent
      stream is `null`); `receiver` holds the messages waiting in the channel. */
  class StreamedCompletionHandler {
    var stream: CompletionStream?
    var sender: Option<CompletionStreamSender>
    var receiver: seq<Message>
    var messageContent: string
    /** What has been submitted to the messaging subsystem. */
    ghost var notifications: seq<EnvRequest>
    /** How many times the background task has been started. */
    ghost var spawns: nat

    /** Both slots are present before the task starts and both absent after it
        has started, which happens at most once. */
    ghost predicate Valid()
      reads this
    {
      (stream != null <==> sender.Some?) && spawns == (if stream == null then 1 else 0)
    }

    ghost function View(): HandlerState
      reads this, stream
    {
      HandlerState(if stream == null then None else Some(stream.pending),
                   sender, receiver, messageContent, notifications)
    }

    constructor From(stream: CompletionStream, sender: CompletionStreamSender, receiver: seq<Message>)
      ensures Valid() && spawns == 0
      ensures this.stream == stream
      ensures View() == FromParts(stream.pending, sender, receiver)
    {
      this.stream := stream;
      this.sender := Some(sender);
      this.receiver := receiver;
      messageContent := "";
      notifications := [];
      spawns := 0;
    }

    /** Starts the background task on the first call, then waits for one message. */
    method Receive(agentId: string, arrives: bool, notifyOk: bool)
      returns (r: Option<CompletionStreamStatus>)
      requires Valid()
      modifies this, stream
      ensures Valid() && spawns == 1
      ensures (View(), r) == ReceiveStep(old(View()), agentId, arrives, notifyOk)
    {
      if sender.Some? && stream != null {
        // spawn never fails, so the `?` after it never returns early
        var started := Spawn();
      }
      if receiver == [] || !arrives {
        // the channel is closed, or nothing came before the timeout
        return None;
      }
      var result := receiver[0];
      receiver := receiver[1..];
      match result {
        case Err(_) =>
          return None;
        case Ok(Working(token)) =>
          messageContent := messageContent + token;
          return Some(Working(token));
        case Ok(Finished) =>
          notifications := notifications + [PushToCache(agentId, messageContent)];
          if !notifyOk {
            return None;
          }
          return Some(Finished);
      }
    }

    /** Takes both slots (`spawn` unwraps them, so both must be present) and
        runs the background task, whose messages land in the channel. */
    method Spawn() returns (res: Result<(), StreamError>)
      requires Valid() && stream != null && sender.Some?
      modifies this, stream
      ensures Valid() && spawns == old(spawns) + 1
      ensures View() == Spawned(old(View()))
      ensures res == Ok(())
    {
      var taken := stream;
      stream := null;
      sender := None;
      spawns := spawns + 1;
      var sent, _ := RunProducer(taken, None);
      receiver := receiver + sent;
      res := Ok(());
    }
  }
}
