/** The relay's module-level state and the two entry points that change it:
    the drain loop `processMessageQueue` and the Telegram event handler, which
    normalizes an update, pushes the result and starts a drain. */
module Pipeline {
  import opened Normalizer
  import opened Dispatch

  class Relay {
    /** The outbound queue: pushed at the tail, shifted at the head. */
    var messageQueue: seq<OutboundMessage>
    /** The re-entrancy guard of the drain. */
    var isProcessingQueue: bool
    /** Every send attempted and every sleep taken, in order. */
    var log: seq<Step<OutboundMessage>>
    /** The temporary-file deletions scheduled so far. */
    var timers: seq<Deletion>

    function State(): QueueState<OutboundMessage>
      reads this
    {
      QueueState(messageQueue, isProcessingQueue, log)
    }

    /** The queue starts empty and the flag cleared. */
    constructor ()
      ensures State() == QueueState([], false, [])
      ensures timers == []
    {
      messageQueue := [];
      isProcessingQueue := false;
      log := [];
      timers := [];
    }

    /** One call of the drain; `outs[i]` is the outcome of the i-th send of this call. */
    method ProcessMessageQueue(fetch: FetchOutcome, outs: seq<SendOutcome>)
      requires |outs| >= |messageQueue|
      modifies this
      ensures State() == Drained(old(State()), fetch, outs)
      ensures timers == old(timers)
    {
      if isProcessingQueue || |messageQueue| == 0 {
        return;
      }
      isProcessingQueue := true;
      if fetch == FetchFailed {
        // the lookup throws: the call ends with the flag still set
        return;
      }
      ghost var pending := messageQueue;
      var i := 0;
      while |messageQueue| > 0
        invariant 0 <= i <= |pending|
        invariant messageQueue == pending[i..]
        invariant log == old(log) + DrainTrace(pending[..i], outs)
        invariant isProcessingQueue && timers == old(timers)
        decreases |messageQueue|
      {
        // the message leaves the queue before it is sent, so a failed send drops it
        var msg := messageQueue[0];
        messageQueue := messageQueue[1..];
        var outcome := outs[i];
        log := log + [Attempt(msg, outcome)];
        match outcome {
          case Delivered =>
            log := log + [Pause(SendIntervalMs)];
          case Failed(code) =>
            if code == RateLimitCode {
              log := log + [Pause(RateLimitPauseMs)];
            }
        }
        DrainTraceSnoc(pending, outs, i);
        i := i + 1;
      }
      assert pending[..i] == pending;
      isProcessingQueue := false;
    }

    /** The Telegram event handler: a matching update schedules the deletion of
        its temporary file (if one was written), is pushed, and a drain runs. */
    method HandleUpdate(u: Update, monitored: int, channelUsername: string, download: Download,
                        fetch: FetchOutcome, outs: seq<SendOutcome>)
      requires |outs| > |messageQueue|
      modifies this
      ensures var r := Normalize(u, monitored, channelUsername, download);
        if r.None? then
          State() == old(State()) && timers == old(timers)
        else
          && State() == Drained(Pushed(old(State()), r.value.message), fetch, outs)
          && timers == old(timers) + (if r.value.deletion.Some? then [r.value.deletion.value] else [])
    {
      var r := Normalize(u, monitored, channelUsername, download);
      if r.Some? {
        if r.value.deletion.Some? {
          timers := timers + [r.value.deletion.value];
        }
        messageQueue := messageQueue + [r.value.message];
        ProcessMessageQueue(fetch, outs);
      }
    }
  }
}
