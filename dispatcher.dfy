/** The send dispatcher of Core/UnicastSocket.cs: three FIFO queues (waiting
    channels, normal letters, priority letters) and the loop that pairs the
    next waiting channel with the next letter, priority letters first. */
module Dispatcher {
  import opened Letters

  /** Identifies a channel that can be handed a letter. */
  type ChannelId = nat

  /** What the dispatcher does that is visible outside it: a letter handed to a
      channel's Enqueue, a Requeued notification, or a call to Discard. */
  datatype DispatchEvent =
    | Handed(channel: ChannelId, letter: Letter)
    | Requeued(letter: Letter)
    | Discarded(channel: ChannelId, letter: Letter)

  /** The dispatcher's state: the three queues and the events so far. */
  datatype Queues = Queues(
    channels: seq<ChannelId>,
    normal: seq<Letter>,
    priority: seq<Letter>,
    trace: seq<DispatchEvent>)

  /** The letters waiting, in the order they will be handed out. */
  function Pending(q: Queues): seq<Letter> {
    q.priority + q.normal
  }

  /** The loop condition of TrySend: a channel waits and a letter waits. */
  predicate CanPair(q: Queues) {
    |q.channels| > 0 && (|q.priority| > 0 || |q.normal| > 0)
  }

  function Min(a: nat, b: nat): nat {
    if a <= b then a else b
  }

  /** One Handed event per (channel, letter) pair, in order. */
  function Handoffs(cs: seq<ChannelId>, ls: seq<Letter>): (r: seq<DispatchEvent>)
    requires |cs| == |ls|
    ensures |r| == |cs|
  {
    if cs == [] then [] else [Handed(cs[0], ls[0])] + Handoffs(cs[1..], ls[1..])
  }

  /** The i-th hand-off pairs the i-th channel with the i-th letter. */
  lemma {:induction false} HandoffsAt(cs: seq<ChannelId>, ls: seq<Letter>, i: nat)
    requires |cs| == |ls| && i < |cs|
    ensures Handoffs(cs, ls)[i] == Handed(cs[i], ls[i])
  {
    if i > 0 {
      HandoffsAt(cs[1..], ls[1..], i - 1);
    }
  }

  /** One iteration of the TrySend loop: the first waiting channel is handed
      the first pending letter, which is the priority queue's head whenever
      that queue is non-empty. */
  function Step(q: Queues): (r: Queues)
    requires CanPair(q)
    ensures r.channels == q.channels[1..]
    ensures Pending(r) == Pending(q)[1..]
    ensures r.trace == q.trace + [Handed(q.channels[0], Pending(q)[0])]
    ensures |q.priority| > 0 ==> r.normal == q.normal && r.priority == q.priority[1..]
    ensures |q.priority| == 0 ==> r.priority == [] && r.normal == q.normal[1..]
  {
    var c := q.channels[0];
    if |q.priority| > 0 then
      q.(channels := q.channels[1..], priority := q.priority[1..], trace := q.trace + [Handed(c, q.priority[0])])
    else
      q.(channels := q.channels[1..], normal := q.normal[1..], trace := q.trace + [Handed(c, q.normal[0])])
  }

  /** The state after TrySend: the loop runs until no channel or no letter waits. */
  function AfterTrySend(q: Queues): (r: Queues)
    decreases |q.channels|
    ensures !CanPair(r)
  {
    if CanPair(q) then AfterTrySend(Step(q)) else q
  }

  /** TrySend in closed form, queues: with k the smaller of the number of
      waiting channels and of pending letters, the first k channels and the
      first k pending letters leave, priority letters before normal ones, and
      both letter queues keep their order. */
  lemma {:induction false} TrySendQueues(q: Queues)
    ensures var k := Min(|q.channels|, |Pending(q)|); var r := AfterTrySend(q);
      && r.channels == q.channels[k..]
      && r.priority == q.priority[Min(k, |q.priority|)..]
      && r.normal == q.normal[k - Min(k, |q.priority|)..]
      && Pending(r) == Pending(q)[k..]
    decreases |q.channels|
  {
    if CanPair(q) {
      var s := Step(q);
      TrySendQueues(s);
      var k := Min(|q.channels|, |Pending(q)|);
      var k' := Min(|s.channels|, |Pending(s)|);
      assert k' == k - 1;
      assert s.channels[k'..] == q.channels[k..];
      assert Pending(s)[k'..] == Pending(q)[k..];
      var m, m' := Min(k, |q.priority|), Min(k', |s.priority|);
      if |q.priority| > 0 {
        assert m' == m - 1 && s.normal == q.normal && k' - m' == k - m;
        assert s.priority[m'..] == q.priority[m..];
      } else {
        assert m == 0 && m' == 0 && s.priority == [];
        assert s.normal[k' - m'..] == q.normal[k - m..];
      }
    }
  }

  /** TrySend in closed form, events: the first k waiting channels are handed
      the first k pending letters pairwise, in order. */
  lemma {:induction false} TrySendTrace(q: Queues)
    ensures var k := Min(|q.channels|, |Pending(q)|);
      AfterTrySend(q).trace == q.trace + Handoffs(q.channels[..k], Pending(q)[..k])
    decreases |q.channels|
  {
    var k := Min(|q.channels|, |Pending(q)|);
    if CanPair(q) {
      var s := Step(q);
      TrySendTrace(s);
      HandoffsFirst(q.channels, Pending(q), k);
    }
  }

  /** The first of k hand-offs, then the remaining k - 1. */
  lemma HandoffsFirst(cs: seq<ChannelId>, ls: seq<Letter>, k: nat)
    requires 0 < k <= |cs| && k <= |ls|
    ensures Handoffs(cs[..k], ls[..k]) == [Handed(cs[0], ls[0])] + Handoffs(cs[1..][..k - 1], ls[1..][..k - 1])
  {
    assert cs[..k][1..] == cs[1..][..k - 1];
    assert ls[..k][1..] == ls[1..][..k - 1];
  }

  /** A sequence is its first k elements followed by the rest. */
  lemma SplitAt<T>(s: seq<T>, k: nat)
    requires k <= |s|
    ensures s == s[..k] + s[k..]
  {
  }

  /** TrySend loses no letter and duplicates none: it raises only hand-offs,
      n of them, pairing the first n waiting channels with the first n pending
      letters, and what was pending is exactly what was handed out followed by
      what is still pending. */
  lemma TrySendConserves(q: Queues)
    ensures var r := AfterTrySend(q); var n := |q.channels| - |r.channels|;
      && 0 <= n <= |Pending(q)|
      && r.trace == q.trace + Handoffs(q.channels[..n], Pending(q)[..n])
      && Pending(q) == Pending(q)[..n] + Pending(r)
      && multiset(Pending(q)) == multiset(Pending(q)[..n]) + multiset(Pending(r))
  {
    TrySendQueues(q);
    TrySendTrace(q);
    PairingConserves(q, AfterTrySend(q), Min(|q.channels|, |Pending(q)|));
  }

  /** The sequence facts behind TrySendConserves, for any state r in which the
      first k channels and pending letters of q have left. */
  lemma PairingConserves(q: Queues, r: Queues, k: nat)
    requires k <= |q.channels| && k <= |Pending(q)|
    requires r.channels == q.channels[k..]
    requires Pending(r) == Pending(q)[k..]
    requires r.trace == q.trace + Handoffs(q.channels[..k], Pending(q)[..k])
    ensures var n := |q.channels| - |r.channels|;
      && n == k
      && r.trace == q.trace + Handoffs(q.channels[..n], Pending(q)[..n])
      && Pending(q) == Pending(q)[..n] + Pending(r)
      && multiset(Pending(q)) == multiset(Pending(q)[..n]) + multiset(Pending(r))
  {
    SplitAt(Pending(q), k);
  }

  /** Waiting channels are served in the order they joined: those served are
      the first ones, and the rest still wait in their order. */
  lemma TrySendServesChannelsInOrder(q: Queues)
    ensures var r := AfterTrySend(q);
      |r.channels| <= |q.channels| && q.channels == q.channels[..|q.channels| - |r.channels|] + r.channels
  {
    TrySendQueues(q);
    SplitAt(q.channels, Min(|q.channels|, |Pending(q)|));
  }

  /** GetNextLetter drains the priority queue first: a normal letter is handed
      out only after every priority letter went to an earlier channel, and
      priority letters are left over only when no channel is left waiting. */
  lemma PriorityBeforeNormal(q: Queues)
    ensures var r := AfterTrySend(q);
      && (r.normal != q.normal ==> r.priority == [] && |q.channels| - |r.channels| > |q.priority|)
      && (r.priority != [] ==> r.channels == [])
  {
    TrySendQueues(q);
  }

  /** The state after Send: the letter joins the back of the normal queue and TrySend runs. */
  function AfterSend(q: Queues, l: Letter): (r: Queues)
    ensures !CanPair(r)
  {
    AfterTrySend(q.(normal := q.normal + [l]))
  }

  /** From a settled state, a sent letter is either handed straight to the
      first waiting channel or waits at the back of the normal queue. */
  lemma SendServesOrQueues(q: Queues, l: Letter)
    requires !CanPair(q)
    ensures var r := AfterSend(q, l);
      if q.channels == [] then
        r == q.(normal := q.normal + [l])
      else
        r == q.(channels := q.channels[1..], trace := q.trace + [Handed(q.channels[0], l)])
  {
    var q1 := q.(normal := q.normal + [l]);
    if q.channels != [] {
      assert Step(q1).channels == q.channels[1..];
      assert AfterTrySend(Step(q1)) == Step(q1);
    }
  }

  /** The state after ChannelCanSend: a channel that becomes free takes the
      head of the normal queue directly, even while priority letters wait,
      and otherwise joins the waiting channels before TrySend runs. */
  function AfterChannelCanSend(q: Queues, c: ChannelId): (r: Queues)
    ensures |q.normal| > 0 ==>
      r == q.(normal := q.normal[1..], trace := q.trace + [Handed(c, q.normal[0])])
    ensures |q.normal| == 0 ==> r == AfterTrySend(q.(channels := q.channels + [c]))
    ensures !CanPair(q) ==> !CanPair(r)
  {
    if |q.normal| > 0 then
      q.(normal := q.normal[1..], trace := q.trace + [Handed(c, q.normal[0])])
    else
      AfterTrySend(q.(channels := q.channels + [c]))
  }

  /** A free channel in a settled state with no normal letter is handed the
      oldest priority letter if there is one, and otherwise waits at the back. */
  lemma ChannelCanSendTakesPriorityOrWaits(q: Queues, c: ChannelId)
    requires !CanPair(q) && |q.normal| == 0
    ensures var r := AfterChannelCanSend(q, c);
      if |q.priority| > 0 then
        r == q.(priority := q.priority[1..], trace := q.trace + [Handed(c, q.priority[0])])
      else
        r == q.(channels := q.channels + [c])
  {
    var q1 := q.(channels := q.channels + [c]);
    if |q.priority| > 0 {
      assert q.channels == [];
      assert AfterTrySend(Step(q1)) == Step(q1);
    }
  }

  /** The state after ChannelFailedToSend: a letter with the Requeue option
      joins the back of the priority queue, TrySend runs and one Requeued
      event follows; any other letter is discarded with no queue touched. */
  function AfterChannelFailedToSend(q: Queues, c: ChannelId, l: Letter): (r: Queues)
    ensures Requeue !in l.options ==> r == q.(trace := q.trace + [Discarded(c, l)])
    ensures Requeue in l.options ==>
      && |r.trace| > 0 && r.trace[|r.trace| - 1] == Requeued(l)
      && r.(trace := r.trace[..|r.trace| - 1]) == AfterTrySend(q.(priority := q.priority + [l]))
    ensures !CanPair(q) ==> !CanPair(r)
  {
    if Requeue in l.options then
      var t := AfterTrySend(q.(priority := q.priority + [l]));
      t.(trace := t.trace + [Requeued(l)])
    else
      q.(trace := q.trace + [Discarded(c, l)])
  }

  /** A requeued letter from a settled state goes first in the next round:
      it is handed to the first waiting channel, or, when none waits, it
      waits at the back of the priority queue; exactly one Requeued event is
      raised, after the hand-off. */
  lemma RequeueServesOrWaits(q: Queues, c: ChannelId, l: Letter)
    requires !CanPair(q) && Requeue in l.options
    ensures var r := AfterChannelFailedToSend(q, c, l);
      if q.channels == [] then
        r == q.(priority := q.priority + [l], trace := q.trace + [Requeued(l)])
      else
        r == q.(channels := q.channels[1..], trace := q.trace + [Handed(q.channels[0], l), Requeued(l)])
  {
    var q1 := q.(priority := q.priority + [l]);
    if q.channels != [] {
      assert q.priority == [] && Pending(q1) == [l];
      assert AfterTrySend(Step(q1)) == Step(q1);
    }
  }

  /** The dispatcher as an object whose queues the operations update in place. */
  class UnicastSocket {
    var channelQueue: seq<ChannelId>
    var sendQueue: seq<Letter>
    var prioritySendQueue: seq<Letter>
    var trace: seq<DispatchEvent>

    function State(): Queues
      reads this
    {
      Queues(channelQueue, sendQueue, prioritySendQueue, trace)
    }

    /** Between operations no channel waits while a letter waits. */
    ghost predicate Valid()
      reads this
    {
      !CanPair(State())
    }

    constructor ()
      ensures Valid() && State() == Queues([], [], [], [])
    {
      channelQueue, sendQueue, prioritySendQueue, trace := [], [], [], [];
    }

    method ChannelFailedToSend(c: ChannelId, l: Letter)
      requires Valid()
      modifies this
      ensures Valid()
      ensures State() == AfterChannelFailedToSend(old(State()), c, l)
    {
      if Requeue in l.options {
        prioritySendQueue := prioritySendQueue + [l];
        TrySend();
        trace := trace + [Requeued(l)];
      } else {
        trace := trace + [Discarded(c, l)];
      }
    }

    method ChannelCanSend(c: ChannelId)
      requires Valid()
      modifies this
      ensures Valid()
      ensures State() == AfterChannelCanSend(old(State()), c)
    {
      if |sendQueue| > 0 {
        var l := sendQueue[0];
        sendQueue := sendQueue[1..];
        trace := trace + [Handed(c, l)];
      } else {
        channelQueue := channelQueue + [c];
        TrySend();
      }
    }

    method Send(l: Letter)
      modifies this
      ensures Valid()
      ensures State() == AfterSend(old(State()), l)
    {
      sendQueue := sendQueue + [l];
      TrySend();
    }

    method TrySend()
      modifies this
      ensures Valid()
      ensures State() == AfterTrySend(old(State()))
    {
      var more := CanSend();
      while more
        invariant more == CanPair(State())
        invariant AfterTrySend(State()) == AfterTrySend(old(State()))
        decreases |channelQueue|
      {
        ghost var before := State();
        var c := GetNextChannel();
        var l := GetNextLetter();
        trace := trace + [Handed(c, l)];
        assert State() == Step(before);
        more := CanSend();
      }
    }

    method CanSend() returns (b: bool)
      ensures b <==> channelQueue != [] && Pending(State()) != []
    {
      b := |channelQueue| > 0 && (|prioritySendQueue| > 0 || |sendQueue| > 0);
    }

    method GetNextChannel() returns (c: ChannelId)
      requires channelQueue != []
      modifies this`channelQueue
      ensures c == old(channelQueue[0]) && channelQueue == old(channelQueue[1..])
    {
      c := channelQueue[0];
      channelQueue := channelQueue[1..];
    }

    method GetNextLetter() returns (l: Letter)
      requires Pending(State()) != []
      modifies this`sendQueue, this`prioritySendQueue
      ensures [l] + Pending(State()) == old(Pending(State()))
      ensures old(prioritySendQueue) != [] ==>
        prioritySendQueue == old(prioritySendQueue[1..]) && sendQueue == old(sendQueue)
      ensures old(prioritySendQueue) == [] ==>
        prioritySendQueue == [] && sendQueue == old(sendQueue[1..])
    {
      if |prioritySendQueue| > 0 {
        l := prioritySendQueue[0];
        prioritySendQueue := prioritySendQueue[1..];
      } else {
        l := sendQueue[0];
        sendQueue := sendQueue[1..];
      }
    }
  }
}
