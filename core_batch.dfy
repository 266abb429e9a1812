/** The older batching decorator of Core/Batch/BatchAbstractChannel.cs. Same
    pattern as the current one, different rules: the time of the first
    enqueue is recorded only when the queue is empty, Enqueue always accepts
    more, a failed batch leaves the guard set, a confirmed batch does not
    re-evaluate the flush, and received batches are unpacked here. */
module CoreBatch {
  import opened Letters

  datatype CoreBatchState = CoreBatchState(
    queue: seq<Letter>,
    builder: seq<Letter>,
    sentBatch: bool,
    timerEnabled: bool,
    firstEnqueueAt: int,
    trace: seq<ChannelEvent>)

  /** A fresh decorator; firstEnqueueAt starts at the clock's origin. */
  const Initial: CoreBatchState := CoreBatchState([], [], false, false, 0, [])

  /** The flush condition of TrySendBatch, once no batch is in flight. */
  predicate FlushDue(s: CoreBatchState, opts: BatchOptions, timeout: bool, now: int) {
    |s.builder| > 0 && (timeout || |s.builder| >= opts.maxLetters || now - s.firstEnqueueAt >= opts.maxExtendMs)
  }

  /** TrySendBatch: nothing happens while a batch is in flight; otherwise a
      flush happens exactly when the flush condition holds, and then sets the
      guard and hands one Batch letter of the builder's letters to the
      wrapped channel. The local queue is never touched. */
  function AfterTrySendBatch(s: CoreBatchState, opts: BatchOptions, serialize: Letter -> Bytes, timeout: bool, now: int)
    : (r: CoreBatchState)
    ensures r != s <==> !s.sentBatch && FlushDue(s, opts, timeout, now)
    ensures r != s ==>
      r == s.(sentBatch := true, builder := [], trace := s.trace + [InnerEnqueue(BuildBatch(s.builder, serialize))])
  {
    if s.sentBatch then s
    else if FlushDue(s, opts, timeout, now) then
      s.(sentBatch := true, builder := [], trace := s.trace + [InnerEnqueue(BuildBatch(s.builder, serialize))])
    else s
  }

  /** Enqueue: the timer is re-armed, the first-enqueue time is taken only
      when the queue was empty, the letter goes to the queue and the builder,
      the flush is evaluated without a timeout, and more is always accepted. */
  function AfterEnqueue(s: CoreBatchState, opts: BatchOptions, serialize: Letter -> Bytes, l: Letter, now: int)
    : (r: (CoreBatchState, EnqueueResult))
    ensures r.1 == CanEnqueueMore
    ensures r.0.queue == s.queue + [l] && r.0.timerEnabled
    ensures |s.queue| == 0 ==> r.0.firstEnqueueAt == now
    ensures |s.queue| > 0 ==> r.0.firstEnqueueAt == s.firstEnqueueAt
    ensures r.0.builder == s.builder + [l] || (r.0.builder == [] && r.0.sentBatch && !s.sentBatch)
    ensures var first := if |s.queue| == 0 then now else s.firstEnqueueAt;
      if !s.sentBatch && (|s.builder| + 1 >= opts.maxLetters || now - first >= opts.maxExtendMs) then
        r.0.sentBatch && r.0.builder == [] && r.0.trace == s.trace + [InnerEnqueue(BuildBatch(s.builder + [l], serialize))]
      else
        r.0.sentBatch == s.sentBatch && r.0.builder == s.builder + [l] && r.0.trace == s.trace
  {
    var s1 := s.(timerEnabled := true,
                 firstEnqueueAt := if |s.queue| == 0 then now else s.firstEnqueueAt,
                 queue := s.queue + [l],
                 builder := s.builder + [l]);
    (AfterTrySendBatch(s1, opts, serialize, false, now), CanEnqueueMore)
  }

  /** Letters enqueued while earlier letters are still queued keep the older
      first-enqueue time, so once the oldest queued letter is MaxExtend old,
      an enqueue with no batch in flight flushes at once. */
  lemma StaleFirstEnqueueFlushes(s: CoreBatchState, opts: BatchOptions, serialize: Letter -> Bytes, l: Letter, now: int)
    requires |s.queue| > 0 && !s.sentBatch && now - s.firstEnqueueAt >= opts.maxExtendMs
    ensures var r := AfterEnqueue(s, opts, serialize, l, now).0;
      r.sentBatch && r.builder == [] && r.trace == s.trace + [InnerEnqueue(BuildBatch(s.builder + [l], serialize))]
  {
  }

  /** How many queued letters a report accounts for. */
  function Reported(l: Letter): nat {
    if l.IsBatch() then |l.parts| else 1
  }

  /** ChannelOnSent: a Batch letter clears the guard; Reported(l) letters are
      dequeued and reported Sent in FIFO order. Nothing else follows: the
      flush is not re-evaluated here. */
  function OnSent(s: CoreBatchState, l: Letter): (r: CoreBatchState)
    requires Reported(l) <= |s.queue|
    ensures r.queue == s.queue[Reported(l)..]
    ensures r.trace == s.trace + SentEach(s.queue[..Reported(l)])
    ensures r.sentBatch == (s.sentBatch && !l.IsBatch())
    ensures r.builder == s.builder && r.timerEnabled == s.timerEnabled && r.firstEnqueueAt == s.firstEnqueueAt
  {
    var n := Reported(l);
    s.(sentBatch := if l.IsBatch() then false else s.sentBatch,
       queue := s.queue[n..],
       trace := s.trace + SentEach(s.queue[..n]))
  }

  /** ChannelOnReceived: a Batch letter yields one Received per part, each
      part deserialized, in part order; any other letter is passed up once,
      unchanged. */
  function OnReceived(s: CoreBatchState, deserialize: Bytes -> Letter, l: Letter): (r: CoreBatchState)
    ensures r.(trace := s.trace) == s
    ensures l.IsBatch() ==> r.trace == s.trace + ReceivedEach(Unpack(l.parts, deserialize))
    ensures !l.IsBatch() ==> r.trace == s.trace + [Received(l)]
  {
    if l.IsBatch() then s.(trace := s.trace + ReceivedEach(Unpack(l.parts, deserialize)))
    else s.(trace := s.trace + [Received(l)])
  }

  /** A batch a peer built from some letters is received here as exactly those
      letters, in order, when the codec round-trips. */
  lemma ReceivedBatchYieldsOriginals(s: CoreBatchState, serialize: Letter -> Bytes, deserialize: Bytes -> Letter,
                                     ls: seq<Letter>)
    requires forall x :: deserialize(serialize(x)) == x
    ensures OnReceived(s, deserialize, BuildBatch(ls, serialize)).trace == s.trace + ReceivedEach(ls)
  {
    BatchRoundTrip(ls, serialize, deserialize);
  }

  /** ChannelOnFailedToSend: a failed Batch letter reports FailedToSend for as
      many dequeued letters as it has parts, in FIFO order, and leaves the
      guard as it was; a failed single letter is passed up unchanged. */
  function OnFailedToSend(s: CoreBatchState, l: Letter): (r: CoreBatchState)
    requires l.IsBatch() ==> |l.parts| <= |s.queue|
    ensures r.sentBatch == s.sentBatch && r.builder == s.builder
    ensures r.timerEnabled == s.timerEnabled && r.firstEnqueueAt == s.firstEnqueueAt
    ensures l.IsBatch() ==> r.queue == s.queue[|l.parts|..] && r.trace == s.trace + FailedEach(s.queue[..|l.parts|])
    ensures !l.IsBatch() ==> r.queue == s.queue && r.trace == s.trace + [FailedToSend(l)]
  {
    if l.IsBatch() then
      s.(queue := s.queue[|l.parts|..], trace := s.trace + FailedEach(s.queue[..|l.parts|]))
    else
      s.(trace := s.trace + [FailedToSend(l)])
  }

  /** The timer's expiry: the timer is stopped and the flush evaluated with a timeout. */
  function OnTimerElapsed(s: CoreBatchState, opts: BatchOptions, serialize: Letter -> Bytes, now: int)
    : (r: CoreBatchState)
    ensures !r.timerEnabled && r.queue == s.queue && r.firstEnqueueAt == s.firstEnqueueAt
    ensures !s.sentBatch && s.builder != [] ==>
              r.sentBatch && r.builder == [] && r.trace == s.trace + [InnerEnqueue(BuildBatch(s.builder, serialize))]
    ensures s.sentBatch || s.builder == [] ==> r == s.(timerEnabled := false)
  {
    AfterTrySendBatch(s.(timerEnabled := false), opts, serialize, true, now)
  }

  /** Because a failed batch leaves the guard set, after a batch failure no
      enqueue and no timer expiry hands anything to the wrapped channel: new
      letters only accumulate, until a Sent report of a Batch letter. */
  lemma {:induction false} FailedBatchBlocksFlushes(s: CoreBatchState, opts: BatchOptions, serialize: Letter -> Bytes,
                                                    b: Letter, ls: seq<Letter>, now: int)
    requires s.sentBatch && b.IsBatch() && |b.parts| <= |s.queue|
    ensures var f := OnFailedToSend(s, b);
      var r := EnqueueAll(f, opts, serialize, ls, now);
      && r.sentBatch && r.trace == f.trace && r.builder == f.builder + ls
      && OnTimerElapsed(r, opts, serialize, now).trace == f.trace
    decreases |ls|
  {
    var f := OnFailedToSend(s, b);
    GuardedEnqueuesSendNothing(f, opts, serialize, ls, now);
  }

  lemma {:induction false} GuardedEnqueuesSendNothing(s: CoreBatchState, opts: BatchOptions, serialize: Letter -> Bytes,
                                                      ls: seq<Letter>, now: int)
    requires s.sentBatch
    ensures var r := EnqueueAll(s, opts, serialize, ls, now);
      r.sentBatch && r.trace == s.trace && r.builder == s.builder + ls
    decreases |ls|
  {
    if ls != [] {
      var s1 := AfterEnqueue(s, opts, serialize, ls[0], now).0;
      GuardedEnqueuesSendNothing(s1, opts, serialize, ls[1..], now);
      assert s.builder + [ls[0]] + ls[1..] == s.builder + ls;
    }
  }

  /** Enqueuing letters one by one at the same instant. */
  function EnqueueAll(s: CoreBatchState, opts: BatchOptions, serialize: Letter -> Bytes, ls: seq<Letter>, now: int)
    : CoreBatchState
    decreases |ls|
  {
    if ls == [] then s else EnqueueAll(AfterEnqueue(s, opts, serialize, ls[0], now).0, opts, serialize, ls[1..], now)
  }

  /** The decorator as an object whose fields the events update in place. */
  class BatchAbstractChannel {
    const options: BatchOptions
    const serialize: Letter -> Bytes
    const deserialize: Bytes -> Letter

    var queue: seq<Letter>
    var batchBuilder: seq<Letter>
    var sentBatch: bool
    var timerEnabled: bool
    var firstEnqueueAt: int
    var trace: seq<ChannelEvent>

    function State(): CoreBatchState
      reads this
    {
      CoreBatchState(queue, batchBuilder, sentBatch, timerEnabled, firstEnqueueAt, trace)
    }

    constructor (options: BatchOptions, serialize: Letter -> Bytes, deserialize: Bytes -> Letter)
      ensures this.options == options && this.serialize == serialize && this.deserialize == deserialize
      ensures State() == Initial
    {
      this.options := options;
      this.serialize := serialize;
      this.deserialize := deserialize;
      queue, batchBuilder, sentBatch, timerEnabled, firstEnqueueAt, trace := [], [], false, false, 0, [];
    }

    method SlidingTimeoutTimerOnElapsed(now: int)
      modifies this
      ensures State() == OnTimerElapsed(old(State()), options, serialize, now)
    {
      timerEnabled := false;
      TrySendBatch(true, now);
    }

    method Enqueue(l: Letter, now: int) returns (r: EnqueueResult)
      modifies this
      ensures (State(), r) == AfterEnqueue(old(State()), options, serialize, l, now)
    {
      timerEnabled := false;
      timerEnabled := true;
      if |queue| == 0 {
        firstEnqueueAt := now;
      }
      queue := queue + [l];
      batchBuilder := batchBuilder + [l];
      TrySendBatch(false, now);
      return CanEnqueueMore;
    }

    method TrySendBatch(timeout: bool, now: int)
      modifies this
      ensures State() == AfterTrySendBatch(old(State()), options, serialize, timeout, now)
    {
      if sentBatch {
        return;
      }
      var something := HasSomethingToSend();
      if something
         && (timeout || |batchBuilder| >= options.maxLetters || now - firstEnqueueAt >= options.maxExtendMs)
      {
        sentBatch := true;
        var batch := BuildBatch(batchBuilder, serialize);
        batchBuilder := [];
        trace := trace + [InnerEnqueue(batch)];
      }
    }

    method HasSomethingToSend() returns (b: bool)
      ensures b <==> batchBuilder != []
    {
      b := |batchBuilder| > 0;
    }

    method Dequeue() returns (l: Letter)
      requires queue != []
      modifies this`queue
      ensures l == old(queue[0]) && queue == old(queue[1..])
    {
      l := queue[0];
      queue := queue[1..];
    }

    method ChannelOnSent(l: Letter)
      requires Reported(l) <= |queue|
      modifies this
      ensures State() == OnSent(old(State()), l)
    {
      if l.IsBatch() {
        sentBatch := false;
        ghost var q0 := queue;
        for i := 0 to |l.parts|
          invariant queue == q0[i..]
          invariant trace == old(trace) + SentEach(q0[..i])
          invariant batchBuilder == old(batchBuilder) && !sentBatch
          invariant timerEnabled == old(timerEnabled) && firstEnqueueAt == old(firstEnqueueAt)
        {
          var x := Dequeue();
          SentEachSnoc(q0[..i], x);
          assert q0[..i + 1] == q0[..i] + [x];
          trace := trace + [Sent(x)];
        }
      } else {
        var x := Dequeue();
        assert [x] == old(queue)[..1];
        trace := trace + [Sent(x)];
      }
    }

    method ChannelOnReceived(l: Letter)
      modifies this`trace
      ensures State() == OnReceived(old(State()), deserialize, l)
    {
      if l.IsBatch() {
        for i := 0 to |l.parts|
          invariant trace == old(trace) + ReceivedEach(Unpack(l.parts[..i], deserialize))
        {
          ReceivedEachSnoc(Unpack(l.parts[..i], deserialize), deserialize(l.parts[i]));
          assert Unpack(l.parts[..i + 1], deserialize) == Unpack(l.parts[..i], deserialize) + [deserialize(l.parts[i])];
          trace := trace + [Received(deserialize(l.parts[i]))];
        }
        assert l.parts[..|l.parts|] == l.parts;
      } else {
        trace := trace + [Received(l)];
      }
    }

    method ChannelOnFailedToSend(l: Letter)
      requires l.IsBatch() ==> |l.parts| <= |queue|
      modifies this`queue, this`trace
      ensures State() == OnFailedToSend(old(State()), l)
    {
      if l.IsBatch() {
        ghost var q0 := queue;
        for i := 0 to |l.parts|
          invariant queue == q0[i..]
          invariant trace == old(trace) + FailedEach(q0[..i])
        {
          var x := Dequeue();
          FailedEachSnoc(q0[..i], x);
          assert q0[..i + 1] == q0[..i] + [x];
          trace := trace + [FailedToSend(x)];
        }
      } else {
        trace := trace + [FailedToSend(l)];
      }
    }
  }
}
