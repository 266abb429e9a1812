/** The batching decorator of Hyperletter/Batch/BatchChannel.cs. It mirrors
    every enqueued letter into a local FIFO and into the batch builder, sends at
    most one Batch letter at a time to the channel it wraps (the sentBatch
    guard), and reports the original letters once the wrapped channel confirms
    or fails the batch. The clock is the `now` argument of each event in
    milliseconds; the stopwatch is the time it was last restarted. */
module HyperBatch {
  import opened Letters

  datatype BatchState = BatchState(
    queue: seq<Letter>,
    builder: seq<Letter>,
    sentBatch: bool,
    timerEnabled: bool,
    watchRunning: bool,
    watchStart: int,
    trace: seq<ChannelEvent>)

  /** A fresh decorator: nothing queued, no batch in flight, timer and stopwatch stopped. */
  const Initial: BatchState := BatchState([], [], false, false, false, 0, [])

  /** The stopwatch reading at time now; a stopwatch never started reads 0. */
  function Elapsed(s: BatchState, now: int): int {
    if s.watchRunning then now - s.watchStart else 0
  }

  /** The flush condition of TrySendBatch, once no batch is in flight: the
      builder holds a letter and the timer fired, or the builder is full, or
      the stopwatch reached MaxExtend. */
  predicate FlushDue(s: BatchState, opts: BatchOptions, timeout: bool, now: int) {
    |s.builder| > 0 && (timeout || |s.builder| >= opts.maxLetters || Elapsed(s, now) >= opts.maxExtendMs)
  }

  /** s' is s after one flush: the guard is set, the builder's letters left as
      one Batch letter handed to the wrapped channel, and the builder is empty. */
  predicate Flushed(s: BatchState, s': BatchState, serialize: Letter -> Bytes) {
    s' == s.(sentBatch := true, builder := [], trace := s.trace + [InnerEnqueue(BuildBatch(s.builder, serialize))])
  }

  /** Letters the wrapped channel holds and has not yet confirmed or failed:
      the queued letters that are not in the builder. */
  function InFlight(s: BatchState): int {
    |s.queue| - |s.builder|
  }

  /** The builder holds the newest queued letters: the queue is the letters in
      flight followed by the builder's letters. */
  predicate BuilderIsTail(s: BatchState) {
    |s.builder| <= |s.queue| && s.queue[|s.queue| - |s.builder|..] == s.builder
  }

  /** TrySendBatch: with a batch in flight it refuses more and does nothing;
      otherwise it flushes exactly when the flush condition holds, and reports
      CantEnqueueMore exactly when it flushed. */
  function AfterTrySendBatch(s: BatchState, opts: BatchOptions, serialize: Letter -> Bytes, timeout: bool, now: int)
    : (r: (BatchState, EnqueueResult))
    ensures s.sentBatch ==> r.0 == s && r.1 == CantEnqueueMore
    ensures !s.sentBatch ==> (r.1 == CantEnqueueMore <==> FlushDue(s, opts, timeout, now))
    ensures !s.sentBatch && FlushDue(s, opts, timeout, now) ==> Flushed(s, r.0, serialize)
    ensures !(!s.sentBatch && FlushDue(s, opts, timeout, now)) ==> r.0 == s
  {
    if s.sentBatch then (s, CantEnqueueMore)
    else if FlushDue(s, opts, timeout, now) then
      (s.(sentBatch := true, builder := [], trace := s.trace + [InnerEnqueue(BuildBatch(s.builder, serialize))]),
       CantEnqueueMore)
    else (s, CanEnqueueMore)
  }

  /** The state Enqueue leaves before it evaluates the flush: the sliding timer
      re-armed, the stopwatch restarted unless a batch is in flight, and the
      letter appended to both the queue and the builder. */
  function Accepted(s: BatchState, l: Letter, now: int): (r: BatchState)
    ensures r.queue == s.queue + [l] && r.builder == s.builder + [l]
    ensures r.timerEnabled && r.sentBatch == s.sentBatch && r.trace == s.trace
    ensures !s.sentBatch ==> r.watchRunning && Elapsed(r, now) == 0
    ensures s.sentBatch ==> r.watchRunning == s.watchRunning && r.watchStart == s.watchStart
  {
    s.(timerEnabled := true,
       watchRunning := s.watchRunning || !s.sentBatch,
       watchStart := if s.sentBatch then s.watchStart else now,
       queue := s.queue + [l],
       builder := s.builder + [l])
  }

  /** Enqueue: the letter is queued and then the flush is evaluated without a timeout. */
  function AfterEnqueue(s: BatchState, opts: BatchOptions, serialize: Letter -> Bytes, l: Letter, now: int)
    : (r: (BatchState, EnqueueResult))
    ensures r.0.queue == s.queue + [l] && r.0.timerEnabled
    ensures r.1 == CanEnqueueMore ==> r.0.builder == s.builder + [l] && r.0.trace == s.trace
    ensures r.1 == CantEnqueueMore && !s.sentBatch ==>
      r.0.builder == [] && r.0.sentBatch && r.0.trace == s.trace + [InnerEnqueue(BuildBatch(s.builder + [l], serialize))]
    ensures s.sentBatch ==> r.1 == CantEnqueueMore && r.0.builder == s.builder + [l] && r.0.trace == s.trace
    ensures !s.sentBatch ==> (r.1 == CantEnqueueMore <==> |s.builder| + 1 >= opts.maxLetters || opts.maxExtendMs <= 0)
    ensures r.1 == CanEnqueueMore ==> r.0 == Accepted(s, l, now)
    ensures r.1 == CantEnqueueMore ==> r.0.sentBatch
    ensures r.0.watchRunning == Accepted(s, l, now).watchRunning && r.0.watchStart == Accepted(s, l, now).watchStart
  {
    AfterTrySendBatch(Accepted(s, l, now), opts, serialize, false, now)
  }

  /** Because Enqueue restarts the stopwatch whenever no batch is in flight,
      MaxExtend (when positive) never triggers a flush from Enqueue: an idle
      decorator flushes on Enqueue exactly when the builder becomes full. */
  lemma EnqueueFlushesOnlyWhenFull(s: BatchState, opts: BatchOptions, serialize: Letter -> Bytes, l: Letter, now: int)
    requires !s.sentBatch && opts.maxExtendMs > 0
    ensures AfterEnqueue(s, opts, serialize, l, now).1 == CantEnqueueMore <==> |s.builder| + 1 >= opts.maxLetters
  {
    assert Elapsed(Accepted(s, l, now), now) == 0;
  }

  /** With the socket's default batch options (Extend 100 ms, MaxExtend 1 s,
      MaxLetters 4000), an idle decorator flushes on Enqueue exactly when the
      new letter is the 4000th in the builder, and then hands all of them over. */
  lemma DefaultsFlushOnThe4000thLetter(s: BatchState, serialize: Letter -> Bytes, l: Letter, now: int)
    requires !s.sentBatch
    ensures var r := AfterEnqueue(s, DefaultBatchOptions, serialize, l, now);
      && (r.1 == CantEnqueueMore <==> |s.builder| + 1 >= 4000)
      && (r.1 == CantEnqueueMore ==> r.0.trace == s.trace + [InnerEnqueue(BuildBatch(s.builder + [l], serialize))])
  {
    EnqueueFlushesOnlyWhenFull(s, DefaultBatchOptions, serialize, l, now);
  }

  /** Enqueue keeps the builder as the tail of the queue; without a flush the
      letters in flight are unchanged, and a flush puts every queued letter in
      flight. In particular, with no batch in flight the queue and the builder
      stay the same length while nothing is flushed. */
  lemma EnqueueKeepsBuilderTail(s: BatchState, opts: BatchOptions, serialize: Letter -> Bytes, l: Letter, now: int)
    requires BuilderIsTail(s)
    ensures var r := AfterEnqueue(s, opts, serialize, l, now).0;
      && BuilderIsTail(r)
      && (r.builder != [] ==> InFlight(r) == InFlight(s))
      && (r.builder == [] ==> InFlight(r) == |r.queue|)
  {
    var a := Accepted(s, l, now);
    assert a.queue[|a.queue| - |a.builder|..] == s.queue[|s.queue| - |s.builder|..] + [l];
  }

  /** Enqueuing letters one by one at the same instant. */
  function EnqueueAll(s: BatchState, opts: BatchOptions, serialize: Letter -> Bytes, ls: seq<Letter>, now: int)
    : BatchState
    decreases |ls|
  {
    if ls == [] then s else EnqueueAll(AfterEnqueue(s, opts, serialize, ls[0], now).0, opts, serialize, ls[1..], now)
  }

  /** The MaxLetters boundary: from an idle decorator with an empty builder,
      fewer than MaxLetters enqueues (MaxExtend positive, no timer firing)
      flush nothing and leave exactly those letters in the builder. */
  lemma {:induction false} NoFlushBelowMaxLetters(s: BatchState, opts: BatchOptions, serialize: Letter -> Bytes,
                                                  pre: seq<Letter>, ls: seq<Letter>, now: int)
    requires !s.sentBatch && s.builder == pre && opts.maxExtendMs > 0
    requires |pre| + |ls| < opts.maxLetters
    ensures var r := EnqueueAll(s, opts, serialize, ls, now);
      !r.sentBatch && r.builder == pre + ls && r.queue == s.queue + ls && r.trace == s.trace
    decreases |ls|
  {
    if ls != [] {
      var s1 := AfterEnqueue(s, opts, serialize, ls[0], now).0;
      EnqueueFlushesOnlyWhenFull(s, opts, serialize, ls[0], now);
      assert s1.builder == pre + [ls[0]];
      NoFlushBelowMaxLetters(s1, opts, serialize, pre + [ls[0]], ls[1..], now);
      assert pre + [ls[0]] + ls[1..] == pre + ls;
      assert s.queue + [ls[0]] + ls[1..] == s.queue + ls;
    }
  }

  /** ...and the enqueue that brings the builder to MaxLetters flushes all of
      them as one batch. */
  lemma FlushAtMaxLetters(s: BatchState, opts: BatchOptions, serialize: Letter -> Bytes,
                          ls: seq<Letter>, l: Letter, now: int)
    requires !s.sentBatch && s.builder == [] && opts.maxExtendMs > 0
    requires |ls| + 1 == opts.maxLetters
    ensures var r := EnqueueAll(s, opts, serialize, ls + [l], now);
      && r.sentBatch && r.builder == [] && r.queue == s.queue + ls + [l]
      && r.trace == s.trace + [InnerEnqueue(BuildBatch(ls + [l], serialize))]
  {
    NoFlushBelowMaxLetters(s, opts, serialize, [], ls, now);
    EnqueueAllSnoc(s, opts, serialize, ls, l, now);
    var m := EnqueueAll(s, opts, serialize, ls, now);
    assert m.builder == ls;
    EnqueueFlushesOnlyWhenFull(m, opts, serialize, l, now);
  }

  lemma {:induction false} EnqueueAllSnoc(s: BatchState, opts: BatchOptions, serialize: Letter -> Bytes,
                                          ls: seq<Letter>, l: Letter, now: int)
    ensures EnqueueAll(s, opts, serialize, ls + [l], now)
         == AfterEnqueue(EnqueueAll(s, opts, serialize, ls, now), opts, serialize, l, now).0
    decreases |ls|
  {
    if ls == [] {
      assert [l][1..] == [];
    } else {
      assert (ls + [l])[1..] == ls[1..] + [l];
      EnqueueAllSnoc(AfterEnqueue(s, opts, serialize, ls[0], now).0, opts, serialize, ls[1..], l, now);
    }
  }

  /** How many queued letters a Sent report accounts for: one per part of a
      Batch letter, one for any other letter. */
  function Reported(l: Letter): nat {
    if l.IsBatch() then |l.parts| else 1
  }

  /** ChannelOnSent: a Batch letter clears the guard; the first Reported(l)
      queued letters are dequeued and reported Sent in FIFO order;
      ChannelQueueEmpty is raised; then the flush is evaluated without a timeout. */
  function OnSent(s: BatchState, opts: BatchOptions, serialize: Letter -> Bytes, l: Letter, now: int): (r: BatchState)
    requires Reported(l) <= |s.queue|
    ensures r.queue == s.queue[Reported(l)..]
    ensures |r.trace| >= |s.trace| + Reported(l) + 1
    ensures r.trace[..|s.trace| + Reported(l) + 1] == s.trace + SentEach(s.queue[..Reported(l)]) + [QueueEmpty]
    ensures l.IsBatch() && !FlushDue(s, opts, false, now) ==> !r.sentBatch && r.builder == s.builder
    ensures !l.IsBatch() && s.sentBatch ==> r.sentBatch && r.builder == s.builder
    ensures r.timerEnabled == s.timerEnabled && r.watchRunning == s.watchRunning && r.watchStart == s.watchStart
    ensures var cleared := l.IsBatch() || !s.sentBatch;
      var reported := s.trace + SentEach(s.queue[..Reported(l)]) + [QueueEmpty];
      if cleared && FlushDue(s, opts, false, now) then
        r.sentBatch && r.builder == [] && r.trace == reported + [InnerEnqueue(BuildBatch(s.builder, serialize))]
      else
        r.sentBatch == !cleared && r.builder == s.builder && r.trace == reported
  {
    var n := Reported(l);
    var s1 := s.(sentBatch := if l.IsBatch() then false else s.sentBatch,
                 queue := s.queue[n..],
                 trace := s.trace + SentEach(s.queue[..n]) + [QueueEmpty]);
    AfterTrySendBatch(s1, opts, serialize, false, now).0
  }

  /** MaxExtend takes effect through a Sent report: a letter enqueued while a
      batch is in flight does not restart the stopwatch, so when the batch is
      confirmed at least MaxExtend after the stopwatch's last start, the
      re-evaluation flushes the builder, that letter included, as the next batch. */
  lemma MaxExtendFlushesOnBatchSent(s: BatchState, opts: BatchOptions, serialize: Letter -> Bytes,
                                    l: Letter, b: Letter, t1: int, t2: int)
    requires s.sentBatch && s.watchRunning && b.IsBatch() && Reported(b) <= |s.queue|
    requires t2 - s.watchStart >= opts.maxExtendMs
    ensures var e := AfterEnqueue(s, opts, serialize, l, t1).0;
      var r := OnSent(e, opts, serialize, b, t2);
      && e.builder == s.builder + [l] && e.trace == s.trace
      && r.sentBatch && r.builder == []
      && r.trace[|r.trace| - 1] == InnerEnqueue(BuildBatch(s.builder + [l], serialize))
  {
    var e := AfterEnqueue(s, opts, serialize, l, t1).0;
    assert e.watchStart == s.watchStart && e.watchRunning;
    assert FlushDue(e, opts, false, t2);
  }

  /** A Sent report covering letters in flight keeps the builder as the tail
      of the queue; a confirmed batch covering all of them leaves no letter in
      flight unless the re-evaluation flushed a new batch. */
  lemma OnSentKeepsBuilderTail(s: BatchState, opts: BatchOptions, serialize: Letter -> Bytes, l: Letter, now: int)
    requires BuilderIsTail(s) && Reported(l) <= InFlight(s)
    ensures var r := OnSent(s, opts, serialize, l, now);
      && BuilderIsTail(r)
      && (l.IsBatch() && Reported(l) == InFlight(s) && !r.sentBatch ==> r.queue == r.builder)
  {
    var n := Reported(l);
    assert s.queue[n..][|s.queue| - n - |s.builder|..] == s.queue[|s.queue| - |s.builder|..];
  }

  /** The batching round trip: from an idle decorator whose queued letters are
      all in the builder, a timer flush hands one batch of all of them to the
      wrapped channel, and its confirmation reports each of them Sent once, in
      enqueue order, leaving nothing queued and the guard clear. */
  lemma BatchSentReportsEachInOrder(s: BatchState, opts: BatchOptions, serialize: Letter -> Bytes, now: int, later: int)
    requires !s.sentBatch && s.queue == s.builder && s.builder != []
    ensures var f := AfterTrySendBatch(s.(timerEnabled := false), opts, serialize, true, now).0;
      var b := BuildBatch(s.queue, serialize);
      var r := OnSent(f, opts, serialize, b, later);
      && f.trace == s.trace + [InnerEnqueue(b)]
      && r.trace == s.trace + [InnerEnqueue(b)] + SentEach(s.queue) + [QueueEmpty]
      && r.queue == [] && r.builder == [] && !r.sentBatch
  {
    var f := AfterTrySendBatch(s.(timerEnabled := false), opts, serialize, true, now).0;
    var b := BuildBatch(s.queue, serialize);
    assert f.queue[..Reported(b)] == s.queue;
  }

  /** All queued letters reported FailedToSend in FIFO order, and the builder cleared. */
  function FailQueued(s: BatchState): (r: BatchState)
    ensures r.queue == [] && r.builder == []
    ensures r.trace == s.trace + FailedEach(s.queue)
    ensures r.sentBatch == s.sentBatch && r.timerEnabled == s.timerEnabled
    ensures r.watchRunning == s.watchRunning && r.watchStart == s.watchStart
  {
    s.(queue := [], builder := [], trace := s.trace + FailedEach(s.queue))
  }

  /** ChannelOnFailedToSend: the guard is cleared; a failed Batch letter fails
      every queued letter, including those enqueued after the batch was built,
      and a failed single letter is reported alone with the queue untouched. */
  function OnFailedToSend(s: BatchState, l: Letter): (r: BatchState)
    ensures !r.sentBatch
    ensures l.IsBatch() ==> r.queue == [] && r.builder == [] && r.trace == s.trace + FailedEach(s.queue)
    ensures !l.IsBatch() ==> r.queue == s.queue && r.builder == s.builder && r.trace == s.trace + [FailedToSend(l)]
    ensures r.timerEnabled == s.timerEnabled && r.watchRunning == s.watchRunning && r.watchStart == s.watchStart
  {
    var s1 := s.(sentBatch := false);
    if l.IsBatch() then FailQueued(s1) else s1.(trace := s1.trace + [FailedToSend(l)])
  }

  /** A failed batch reports every letter that was queued exactly once: the
      letters reported are a permutation, indeed the same sequence, of the queue. */
  lemma BatchFailureReportsAll(s: BatchState, l: Letter)
    requires l.IsBatch()
    ensures var r := OnFailedToSend(s, l);
      forall x :: multiset(s.queue)[x] == multiset(r.trace[|s.trace|..])[FailedToSend(x)]
  {
    var r := OnFailedToSend(s, l);
    var out := r.trace[|s.trace|..];
    assert out == FailedEach(s.queue);
    forall x ensures multiset(s.queue)[x] == multiset(out)[FailedToSend(x)] {
      FailedEachCount(s.queue, x);
    }
  }

  lemma {:induction false} FailedEachCount(ls: seq<Letter>, x: Letter)
    ensures multiset(ls)[x] == multiset(FailedEach(ls))[FailedToSend(x)]
  {
    if ls != [] {
      FailedEachCount(ls[1..], x);
      assert ls == [ls[0]] + ls[1..];
      assert FailedEach(ls) == [FailedToSend(ls[0])] + FailedEach(ls[1..]);
    }
  }

  /** ChannelOnDisconnected: the timer is stopped, the guard cleared, every
      queued letter failed in order and the builder emptied, and only then is
      ChannelDisconnected raised. */
  function OnDisconnected(s: BatchState, reason: ShutdownReason): (r: BatchState)
    ensures !r.timerEnabled && !r.sentBatch && r.queue == [] && r.builder == []
    ensures r.trace == s.trace + FailedEach(s.queue) + [Disconnected(reason)]
    ensures r.watchRunning == s.watchRunning && r.watchStart == s.watchStart
  {
    var f := FailQueued(s.(timerEnabled := false, sentBatch := false));
    f.(trace := f.trace + [Disconnected(reason)])
  }

  /** ChannelOnReceived: every received letter, a Batch letter included, is
      passed up unchanged and alone; nothing else changes. */
  function OnReceived(s: BatchState, l: Letter): (r: BatchState)
    ensures r.(trace := s.trace) == s
    ensures r.trace == s.trace + [Received(l)]
  {
    s.(trace := s.trace + [Received(l)])
  }

  /** The sliding timer's expiry: the timer is stopped and the flush is
      evaluated with a timeout, so an idle decorator with a letter flushes. */
  function OnTimerElapsed(s: BatchState, opts: BatchOptions, serialize: Letter -> Bytes, now: int): (r: BatchState)
    ensures !r.timerEnabled && r.queue == s.queue
    ensures !s.sentBatch && s.builder != [] ==> Flushed(s.(timerEnabled := false), r, serialize)
    ensures s.sentBatch || s.builder == [] ==> r == s.(timerEnabled := false)
  {
    AfterTrySendBatch(s.(timerEnabled := false), opts, serialize, true, now).0
  }

  /** The decorator as an object whose fields the events update in place. */
  class BatchChannel {
    const options: BatchOptions
    const serialize: Letter -> Bytes

    var queue: seq<Letter>
    var batchBuilder: seq<Letter>
    var sentBatch: bool
    var timerEnabled: bool
    var stopwatchRunning: bool
    var stopwatchStart: int
    var trace: seq<ChannelEvent>

    function State(): BatchState
      reads this
    {
      BatchState(queue, batchBuilder, sentBatch, timerEnabled, stopwatchRunning, stopwatchStart, trace)
    }

    constructor (options: BatchOptions, serialize: Letter -> Bytes)
      ensures this.options == options && this.serialize == serialize
      ensures State() == Initial
    {
      this.options := options;
      this.serialize := serialize;
      queue, batchBuilder, sentBatch := [], [], false;
      timerEnabled, stopwatchRunning, stopwatchStart := false, false, 0;
      trace := [];
    }

    method Enqueue(l: Letter, now: int) returns (r: EnqueueResult)
      modifies this
      ensures (State(), r) == AfterEnqueue(old(State()), options, serialize, l, now)
    {
      timerEnabled := false;
      timerEnabled := true;
      if !sentBatch {
        stopwatchRunning, stopwatchStart := true, now;
      }
      queue := queue + [l];
      batchBuilder := batchBuilder + [l];
      r := TrySendBatch(false, now);
    }

    method TrySendBatch(timeout: bool, now: int) returns (r: EnqueueResult)
      modifies this
      ensures (State(), r) == AfterTrySendBatch(old(State()), options, serialize, timeout, now)
    {
      if sentBatch {
        return CantEnqueueMore;
      }
      if |batchBuilder| > 0
         && (timeout || |batchBuilder| >= options.maxLetters || Elapsed(State(), now) >= options.maxExtendMs)
      {
        sentBatch := true;
        var batch := Build();
        trace := trace + [InnerEnqueue(batch)];
        return CantEnqueueMore;
      }
      return CanEnqueueMore;
    }

    /** The builder's Build: one Batch letter of all accumulated letters; the builder is emptied. */
    method Build() returns (b: Letter)
      modifies this`batchBuilder
      ensures b == BuildBatch(old(batchBuilder), serialize) && batchBuilder == []
    {
      b := BuildBatch(batchBuilder, serialize);
      batchBuilder := [];
    }

    method Dequeue() returns (l: Letter)
      requires queue != []
      modifies this`queue
      ensures l == old(queue[0]) && queue == old(queue[1..])
    {
      l := queue[0];
      queue := queue[1..];
    }

    method ChannelOnSent(l: Letter, now: int)
      requires Reported(l) <= |queue|
      modifies this
      ensures State() == OnSent(old(State()), options, serialize, l, now)
    {
      if l.IsBatch() {
        sentBatch := false;
      }
      SentQueued(Reported(l));
      trace := trace + [QueueEmpty];
      var _ := TrySendBatch(false, now);
    }

    /** The dequeue loop of ChannelOnSent: the first n queued letters are
        dequeued and reported Sent, in order. */
    method SentQueued(n: nat)
      requires n <= |queue|
      modifies this`queue, this`trace
      ensures queue == old(queue[n..]) && trace == old(trace) + SentEach(old(queue[..n]))
    {
      ghost var q0 := queue;
      for i := 0 to n
        invariant queue == q0[i..]
        invariant trace == old(trace) + SentEach(q0[..i])
      {
        var x := Dequeue();
        SentEachSnoc(q0[..i], x);
        assert q0[..i + 1] == q0[..i] + [x];
        trace := trace + [Sent(x)];
      }
    }

    method ChannelOnReceived(l: Letter)
      modifies this
      ensures State() == OnReceived(old(State()), l)
    {
      trace := trace + [Received(l)];
    }

    method ChannelOnFailedToSend(l: Letter)
      modifies this
      ensures State() == OnFailedToSend(old(State()), l)
    {
      sentBatch := false;
      if l.IsBatch() {
        FailedQueuedLetters();
      } else {
        trace := trace + [FailedToSend(l)];
      }
    }

    method FailedQueuedLetters()
      modifies this`queue, this`trace, this`batchBuilder
      ensures State() == FailQueued(old(State()))
    {
      ghost var q0 := queue;
      while queue != []
        invariant |queue| <= |q0| && queue == q0[|q0| - |queue|..]
        invariant trace == old(trace) + FailedEach(q0[..|q0| - |queue|])
        invariant batchBuilder == old(batchBuilder)
        decreases |queue|
      {
        ghost var done := q0[..|q0| - |queue|];
        var x := Dequeue();
        FailedEachSnoc(done, x);
        assert q0[..|q0| - |queue|] == done + [x];
        trace := trace + [FailedToSend(x)];
      }
      assert q0[..|q0|] == q0;
      batchBuilder := [];
    }

    method ChannelOnDisconnected(reason: ShutdownReason)
      modifies this
      ensures State() == OnDisconnected(old(State()), reason)
    {
      timerEnabled := false;
      sentBatch := false;
      FailedQueuedLetters();
      trace := trace + [Disconnected(reason)];
    }

    method SlidingTimeoutTimerOnElapsed(now: int)
      modifies this
      ensures State() == OnTimerElapsed(old(State()), options, serialize, now)
    {
      timerEnabled := false;
      var _ := TrySendBatch(true, now);
    }
  }
}
