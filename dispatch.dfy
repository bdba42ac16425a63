/** The specification of the outbound queue's drain (`processMessageQueue`):
    what one call does to the queue, the re-entrancy flag and the record of
    send attempts and pauses.  The destination channel lookup and each send
    are inputs: the lookup succeeds or throws, and each send is delivered or
    fails with an error code. */
module Dispatch {

  datatype SendOutcome = Delivered | Failed(code: int)

  datatype FetchOutcome = ChannelFetched | FetchFailed

  /** One entry of the drain's record: a send of a message with its outcome, or a sleep. */
  datatype Step<M> = Attempt(msg: M, outcome: SendOutcome) | Pause(ms: nat)

  /** The module-level queue, the `isProcessingQueue` flag and everything recorded so far. */
  datatype QueueState<M> = QueueState(queue: seq<M>, processing: bool, log: seq<Step<M>>)

  const SendIntervalMs: nat := 1000
  const RateLimitPauseMs: nat := 5000
  const RateLimitCode := 429

  /** The sleep that follows a send with the given outcome. */
  function PauseAfter<M>(o: SendOutcome): (r: seq<Step<M>>)
    ensures |r| <= 1 && forall i :: 0 <= i < |r| ==> r[i].Pause?
    // no sleep exactly after a failure other than 429
    ensures r == [] <==> o.Failed? && o.code != RateLimitCode
    ensures o.Delivered? ==> r == [Pause(SendIntervalMs)]
    ensures o == Failed(RateLimitCode) ==> r == [Pause(RateLimitPauseMs)]
  {
    match o
    case Delivered => [Pause(SendIntervalMs)]
    case Failed(code) => if code == RateLimitCode then [Pause(RateLimitPauseMs)] else []
  }

  /** What a completed drain records: each queued message is taken from the head
      and sent once, with the outcome of its own send, then the pause for it. */
  function DrainTrace<M>(msgs: seq<M>, outs: seq<SendOutcome>): (r: seq<Step<M>>)
    requires |outs| >= |msgs|
    // one send per message, each followed by at most one sleep
    ensures |msgs| <= |r| <= 2 * |msgs|
    ensures msgs != [] ==> r[0] == Attempt(msgs[0], outs[0])
  {
    if msgs == [] then [] else [Attempt(msgs[0], outs[0])] + PauseAfter(outs[0]) + DrainTrace(msgs[1..], outs[1..])
  }

  /** The messages sent, in the order of the record. */
  function Attempts<M>(log: seq<Step<M>>): seq<M>
  {
    if log == [] then [] else (if log[0].Attempt? then [log[0].msg] else []) + Attempts(log[1..])
  }

  /** The outcomes of the sends, in the order of the record. */
  function Outcomes<M>(log: seq<Step<M>>): seq<SendOutcome>
  {
    if log == [] then [] else (if log[0].Attempt? then [log[0].outcome] else []) + Outcomes(log[1..])
  }

  /** The total time slept. */
  function TotalDelay<M>(log: seq<Step<M>>): nat
  {
    if log == [] then 0 else (if log[0].Pause? then log[0].ms else 0) + TotalDelay(log[1..])
  }

  function CountDelivered(outs: seq<SendOutcome>): nat
  {
    if outs == [] then 0 else (if outs[0].Delivered? then 1 else 0) + CountDelivered(outs[1..])
  }

  function CountRateLimited(outs: seq<SendOutcome>): nat
  {
    if outs == [] then 0 else (if outs[0] == Failed(RateLimitCode) then 1 else 0) + CountRateLimited(outs[1..])
  }

  /** `messageQueue.push(m)`. */
  function Pushed<M>(s: QueueState<M>, m: M): (r: QueueState<M>)
    // the message joins at the tail; the head, the flag and the record are unchanged
    ensures |r.queue| == |s.queue| + 1 && r.queue[..|s.queue|] == s.queue && r.queue[|s.queue|] == m
    ensures r.processing == s.processing && r.log == s.log
  {
    s.(queue := s.queue + [m])
  }

  /** Pushes several messages, one after another. */
  function PushedAll<M>(s: QueueState<M>, ms: seq<M>): (r: QueueState<M>)
    ensures r == s.(queue := s.queue + ms)
    decreases |ms|
  {
    if ms == [] then
      assert s.queue + ms == s.queue;
      s
    else
      var r := PushedAll(Pushed(s, ms[0]), ms[1..]);
      assert s.queue + [ms[0]] + ms[1..] == s.queue + ms;
      r
  }

  /** One call of the drain.  With the flag set or the queue empty it returns at
      once.  Otherwise it sets the flag; if the channel lookup throws, the call
      ends there with the flag still set; if not, it sends every queued message
      and clears the flag.  `outs` answers the sends in order. */
  function Drained<M>(s: QueueState<M>, fetch: FetchOutcome, outs: seq<SendOutcome>): (r: QueueState<M>)
    requires |outs| >= |s.queue|
    ensures |r.queue| <= |s.queue|
    // the early return changes nothing
    ensures s.processing || s.queue == [] ==> r == s
    // a failed lookup leaves the queue and the record untouched and the flag set
    ensures fetch == FetchFailed ==> r.queue == s.queue && r.log == s.log && r.processing == (s.processing || s.queue != [])
    // a drain that gets past the guard with the channel found ends idle and empty
    ensures !s.processing && fetch == ChannelFetched ==> r.queue == [] && !r.processing
  {
    if s.processing || |s.queue| == 0 then s
    else if fetch == FetchFailed then s.(processing := true)
    else QueueState([], false, s.log + DrainTrace(s.queue, outs))
  }

  lemma {:induction false} AttemptsAppend<M>(a: seq<Step<M>>, b: seq<Step<M>>)
    ensures Attempts(a + b) == Attempts(a) + Attempts(b)
    decreases |a|
  {
    if a != [] {
      assert (a + b)[1..] == a[1..] + b;
      AttemptsAppend(a[1..], b);
    } else {
      assert a + b == b;
    }
  }

  lemma {:induction false} OutcomesAppend<M>(a: seq<Step<M>>, b: seq<Step<M>>)
    ensures Outcomes(a + b) == Outcomes(a) + Outcomes(b)
    decreases |a|
  {
    if a != [] {
      assert (a + b)[1..] == a[1..] + b;
      OutcomesAppend(a[1..], b);
    } else {
      assert a + b == b;
    }
  }

  lemma {:induction false} TotalDelayAppend<M>(a: seq<Step<M>>, b: seq<Step<M>>)
    ensures TotalDelay(a + b) == TotalDelay(a) + TotalDelay(b)
    decreases |a|
  {
    if a != [] {
      assert (a + b)[1..] == a[1..] + b;
      TotalDelayAppend(a[1..], b);
    } else {
      assert a + b == b;
    }
  }

  /** The record of a drain grows by one message's steps at a time, head first. */
  lemma {:induction false} DrainTraceSnoc<M>(msgs: seq<M>, outs: seq<SendOutcome>, k: nat)
    requires k < |msgs| <= |outs|
    ensures DrainTrace(msgs[..k + 1], outs) == DrainTrace(msgs[..k], outs) + [Attempt(msgs[k], outs[k])] + PauseAfter(outs[k])
    decreases k
  {
    if k > 0 {
      assert msgs[..k + 1][1..] == msgs[1..][..k];
      assert msgs[..k][1..] == msgs[1..][..k - 1];
      DrainTraceSnoc(msgs[1..], outs[1..], k - 1);
    }
  }

  /** A drain sends the queued messages in queue order, each exactly once. */
  lemma {:induction false} DrainAttemptsInOrder<M>(msgs: seq<M>, outs: seq<SendOutcome>)
    requires |outs| >= |msgs|
    ensures Attempts(DrainTrace(msgs, outs)) == msgs
    decreases |msgs|
  {
    if msgs != [] {
      var head := [Attempt(msgs[0], outs[0])] + PauseAfter<M>(outs[0]);
      AttemptsAppend(head, DrainTrace(msgs[1..], outs[1..]));
      assert Attempts(head) == [msgs[0]] by {
        assert head[1..] == PauseAfter<M>(outs[0]);
      }
      DrainAttemptsInOrder(msgs[1..], outs[1..]);
    }
  }

  /** Each send's outcome is used for that message only and the next send is of
      the next message: a failed send, 429 included, is never repeated. */
  lemma {:induction false} DrainOutcomesUsedOnce<M>(msgs: seq<M>, outs: seq<SendOutcome>)
    requires |outs| >= |msgs|
    ensures Outcomes(DrainTrace(msgs, outs)) == outs[..|msgs|]
    decreases |msgs|
  {
    if msgs != [] {
      var head := [Attempt(msgs[0], outs[0])] + PauseAfter<M>(outs[0]);
      OutcomesAppend(head, DrainTrace(msgs[1..], outs[1..]));
      assert Outcomes(head) == [outs[0]] by {
        assert head[1..] == PauseAfter<M>(outs[0]);
      }
      DrainOutcomesUsedOnce(msgs[1..], outs[1..]);
      assert outs[..|msgs|] == [outs[0]] + outs[1..][..|msgs| - 1];
    }
  }

  /** Pause accounting: 1000 ms per delivered message, 5000 ms per send failing
      with 429, nothing for any other failure. */
  lemma {:induction false} DrainDelay<M>(msgs: seq<M>, outs: seq<SendOutcome>)
    requires |outs| >= |msgs|
    ensures TotalDelay(DrainTrace(msgs, outs))
         == SendIntervalMs * CountDelivered(outs[..|msgs|]) + RateLimitPauseMs * CountRateLimited(outs[..|msgs|])
    decreases |msgs|
  {
    if msgs != [] {
      var head := [Attempt(msgs[0], outs[0])] + PauseAfter<M>(outs[0]);
      TotalDelayAppend(head, DrainTrace(msgs[1..], outs[1..]));
      assert head[1..] == PauseAfter<M>(outs[0]);
      DrainDelay(msgs[1..], outs[1..]);
      var window := outs[..|msgs|];
      assert window[1..] == outs[1..][..|msgs| - 1];
    }
  }

  /** A drain that gets past the guard with the channel found sends the whole
      queue in push order, one send per message, empties the queue, clears the
      flag and sleeps 1000 ms per delivery and 5000 ms per 429. */
  lemma CompletedDrain<M>(s: QueueState<M>, outs: seq<SendOutcome>)
    requires !s.processing && s.queue != [] && |outs| >= |s.queue|
    ensures var r := Drained(s, ChannelFetched, outs);
      && r.queue == [] && !r.processing
      && |r.log| >= |s.log| && r.log[..|s.log|] == s.log
      && Attempts(r.log) == Attempts(s.log) + s.queue
      && Outcomes(r.log) == Outcomes(s.log) + outs[..|s.queue|]
      && TotalDelay(r.log) == TotalDelay(s.log)
           + SendIntervalMs * CountDelivered(outs[..|s.queue|])
           + RateLimitPauseMs * CountRateLimited(outs[..|s.queue|])
  {
    var t := DrainTrace(s.queue, outs);
    AttemptsAppend(s.log, t);
    OutcomesAppend(s.log, t);
    TotalDelayAppend(s.log, t);
    DrainAttemptsInOrder(s.queue, outs);
    DrainOutcomesUsedOnce(s.queue, outs);
    DrainDelay(s.queue, outs);
  }

  /** Messages pushed while idle are sent by the next completed drain after
      those already queued, in push order (tail push, head shift). */
  lemma PushesThenDrain<M>(s: QueueState<M>, ms: seq<M>, outs: seq<SendOutcome>)
    requires !s.processing && |outs| >= |s.queue| + |ms|
    ensures Attempts(Drained(PushedAll(s, ms), ChannelFetched, outs).log) == Attempts(s.log) + s.queue + ms
  {
    var p := PushedAll(s, ms);
    if p.queue != [] {
      CompletedDrain(p, outs);
    }
  }

  /** Three queued messages where the second send is rate-limited: all three are
      sent once, in order, the second is not sent again, and the sleeps total
      1000 + 5000 + 1000 ms. */
  lemma RateLimitedMessageDropped<M>(a: M, b: M, c: M)
    ensures var r := Drained(QueueState([a, b, c], false, []), ChannelFetched, [Delivered, Failed(RateLimitCode), Delivered]);
      && Attempts(r.log) == [a, b, c]
      && Outcomes(r.log) == [Delivered, Failed(RateLimitCode), Delivered]
      && TotalDelay(r.log) == 7000
      && r.queue == []
  {
    var outs := [Delivered, Failed(RateLimitCode), Delivered];
    CompletedDrain(QueueState([a, b, c], false, []), outs);
    assert outs[..3] == outs;
    assert outs[1..] == [Failed(RateLimitCode), Delivered];
    assert outs[1..][1..] == [Delivered];
    assert outs[1..][1..][1..] == [];
    assert CountDelivered(outs[1..][1..]) == 1 && CountRateLimited(outs[1..][1..]) == 0;
    assert CountDelivered(outs[1..]) == 1 && CountRateLimited(outs[1..]) == 1;
  }

  /** A later call of the drain: a push by the event handler, or a drain call
      with its own lookup and send outcomes. */
  datatype Call<M> = Enqueue(msg: M) | Process(fetch: FetchOutcome, outs: seq<SendOutcome>)

  /** Every drain call in `calls` has an outcome for each send it could make. */
  predicate Answered<M>(s: QueueState<M>, calls: seq<Call<M>>)
  {
    forall i :: 0 <= i < |calls| && calls[i].Process? ==> |calls[i].outs| >= |s.queue| + |calls|
  }

  function Apply<M>(s: QueueState<M>, c: Call<M>): (r: QueueState<M>)
    requires c.Process? ==> |c.outs| >= |s.queue|
    ensures |r.queue| <= |s.queue| + 1
  {
    match c
    case Enqueue(m) => Pushed(s, m)
    case Process(fetch, outs) => Drained(s, fetch, outs)
  }

  /** The outcomes given to later calls still suffice after the first call. */
  lemma AnsweredTail<M>(s: QueueState<M>, calls: seq<Call<M>>)
    requires Answered(s, calls) && calls != []
    ensures calls[0].Process? ==> |calls[0].outs| >= |s.queue|
    ensures Answered(Apply(s, calls[0]), calls[1..])
  {
    var t := Apply(s, calls[0]);
    forall i | 0 <= i < |calls[1..]| && calls[1..][i].Process?
      ensures |calls[1..][i].outs| >= |t.queue| + |calls[1..]|
    {
      assert calls[1..][i] == calls[i + 1];
    }
  }

  /** The state after a sequence of later calls. */
  function Run<M>(s: QueueState<M>, calls: seq<Call<M>>): QueueState<M>
    requires Answered(s, calls)
    decreases |calls|
  {
    if calls == [] then s
    else
      var t := Apply(s, calls[0]);
      AnsweredTail(s, calls);
      Run(t, calls[1..])
  }

  /** The messages pushed by a sequence of calls, in order. */
  function Enqueued<M>(calls: seq<Call<M>>): seq<M>
  {
    if calls == [] then [] else (if calls[0].Enqueue? then [calls[0].msg] else []) + Enqueued(calls[1..])
  }

  /** Over any sequence of later pushes and drain calls, the messages sent so
      far followed by those still queued are the messages sent before, then
      those queued before, then those pushed, in push order: nothing is
      reordered, sent twice or lost except by its one failed send. */
  lemma {:induction false} FifoAcrossCalls<M>(s: QueueState<M>, calls: seq<Call<M>>)
    requires Answered(s, calls)
    ensures Attempts(Run(s, calls).log) + Run(s, calls).queue == Attempts(s.log) + s.queue + Enqueued(calls)
    decreases |calls|
  {
    if calls == [] {
      assert s.queue + Enqueued(calls) == s.queue;
    } else {
      AnsweredTail(s, calls);
      var t := Apply(s, calls[0]);
      FifoAcrossCalls(t, calls[1..]);
      assert Run(s, calls) == Run(t, calls[1..]);
      match calls[0]
      case Enqueue(m) =>
        assert Enqueued(calls) == [m] + Enqueued(calls[1..]);
        assert t.queue == s.queue + [m] && t.log == s.log;
        assert s.queue + Enqueued(calls) == t.queue + Enqueued(calls[1..]);
      case Process(fetch, outs) =>
        assert Enqueued(calls) == Enqueued(calls[1..]);
        if !s.processing && s.queue != [] && fetch == ChannelFetched {
          AttemptsAppend(s.log, DrainTrace(s.queue, outs));
          DrainAttemptsInOrder(s.queue, outs);
          assert Attempts(t.log) + t.queue == Attempts(s.log) + s.queue;
        }
    }
  }

  /** Once the flag is set and no drain is running to clear it, every later drain
      call takes the early return: pushes pile up, the flag stays set and
      nothing more is sent. */
  lemma {:induction false} StuckForever<M>(s: QueueState<M>, calls: seq<Call<M>>)
    requires s.processing && Answered(s, calls)
    ensures Run(s, calls) == QueueState(s.queue + Enqueued(calls), true, s.log)
    decreases |calls|
  {
    if calls != [] {
      var t := Apply(s, calls[0]);
      AnsweredTail(s, calls);
      StuckForever(t, calls[1..]);
      assert Run(s, calls) == Run(t, calls[1..]);
      match calls[0]
      case Enqueue(m) =>
        assert Enqueued(calls) == [m] + Enqueued(calls[1..]);
        assert t.queue == s.queue + [m];
        assert s.queue + Enqueued(calls) == t.queue + Enqueued(calls[1..]);
      case Process(_, _) =>
        assert Enqueued(calls) == Enqueued(calls[1..]);
        assert t == s;
    }
  }

  /** If the destination channel lookup throws, the queue is left as it was with
      the flag set, and no later call ever sends anything again. */
  lemma FetchFailureBlocksForever<M>(s: QueueState<M>, outs: seq<SendOutcome>, calls: seq<Call<M>>)
    requires !s.processing && s.queue != [] && |outs| >= |s.queue|
    requires Answered(Drained(s, FetchFailed, outs), calls)
    ensures var t := Drained(s, FetchFailed, outs);
      && t == s.(processing := true)
      && Run(t, calls).processing
      && Run(t, calls).queue == s.queue + Enqueued(calls)
      && Run(t, calls).log == s.log
  {
    StuckForever(Drained(s, FetchFailed, outs), calls);
  }
}
