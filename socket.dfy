/** The socket aggregate of Hyperletter/HyperSocket.cs: the binding-to-channel
    map, the node-id route table, and the handlers the socket attaches to
    every channel. The letter dispatcher, the channels themselves and the
    socket's subscribers are outside the model; what the socket asks of them
    is recorded, in order, as a trace of SocketEvents. */
module Socket {
  import opened Letters

  /** An endpoint address; the IP address is kept as a number. */
  datatype Binding = Binding(ip: nat, port: nat)

  datatype Direction = Inbound | Outbound

  /** Channels are identified by a number the socket can compare. */
  type ChannelId = nat

  /** What a handler learns from the channel that raised the event. */
  datatype ChannelView = ChannelView(id: ChannelId, binding: Binding, direction: Direction, connectedTo: Guid)

  /** The socket events a caller may have subscribed to. */
  datatype Subscription = OnSent | OnReceived | OnDiscarded | OnRequeued | OnConnected | OnDisconnected

  datatype SocketEvent =
    /** The letter was handed to the letter dispatcher's letter queue. */
    | DispatchLetter(letter: Letter)
    /** The channel was handed to the letter dispatcher's channel queue. */
    | DispatchChannel(channel: ChannelId)
    /** The letter was enqueued directly on the channel. */
    | ChannelEnqueue(channel: ChannelId, letter: Letter)
    /** The channel was hooked up (wrapped for batching when enabled) and initialized. */
    | Hooked(channel: ChannelId, batched: bool)
    /** The channel was told to connect. */
    | StartConnect(channel: ChannelId)
    | Dispose(channel: ChannelId)
    /** The socket's own events, raised to its subscribers. */
    | SentUp(letter: Letter)
    | ReceivedUp(letter: Letter)
    | DiscardedUp(binding: Binding, letter: Letter)
    | RequeuedUp(letter: Letter)
    | ConnectedUp(binding: Binding)
    | DisconnectedUp(binding: Binding)

  datatype SocketState = SocketState(
    channels: map<Binding, ChannelId>,
    routes: map<Guid, ChannelId>,
    nextId: ChannelId,
    trace: seq<SocketEvent>)

  /** Every channel the socket knows of was allocated before nextId. */
  ghost predicate Allocated(s: SocketState) {
    (forall b :: b in s.channels ==> s.channels[b] < s.nextId)
    && (forall g :: g in s.routes ==> s.routes[g] < s.nextId)
  }

  /** Send: the letter goes to the dispatcher's letter queue, nothing else changes. */
  function AfterSend(s: SocketState, l: Letter): (r: SocketState)
    ensures r.channels == s.channels && r.routes == s.routes && r.nextId == s.nextId
    ensures r.trace == s.trace + [DispatchLetter(l)]
  {
    s.(trace := s.trace + [DispatchLetter(l)])
  }

  /** Answer: a reply goes to the channel the route table maps the first
      address entry of the request to, and nowhere else. A request with no
      address makes the indexing throw (ok is false) and changes nothing;
      an address with no route changes nothing either. */
  function AfterAnswer(s: SocketState, answer: Letter, answeringTo: Letter): (r: (SocketState, bool))
    ensures r.1 <==> |answeringTo.address| > 0
    ensures r.0.channels == s.channels && r.0.routes == s.routes && r.0.nextId == s.nextId
    ensures r.1 && answeringTo.address[0] in s.routes ==>
              r.0.trace == s.trace + [ChannelEnqueue(s.routes[answeringTo.address[0]], answer)]
    ensures !(r.1 && answeringTo.address[0] in s.routes) ==> r.0 == s
  {
    if |answeringTo.address| == 0 then (s, false)
    else if answeringTo.address[0] in s.routes then
      (s.(trace := s.trace + [ChannelEnqueue(s.routes[answeringTo.address[0]], answer)]), true)
    else (s, true)
  }

  /** An answer never reaches the dispatcher: whatever the route table holds,
      no DispatchLetter is appended. */
  lemma AnswerBypassesDispatcher(s: SocketState, answer: Letter, answeringTo: Letter)
    ensures var r := AfterAnswer(s, answer, answeringTo).0;
      |r.trace| >= |s.trace| && r.trace[..|s.trace|] == s.trace
      && forall i :: |s.trace| <= i < |r.trace| ==> !r.trace[i].DispatchLetter?
  {
  }

  /** HookupChannel: the channel is stored under its binding, replacing any
      channel stored there before, and is initialized. */
  function AfterHookup(s: SocketState, batchEnabled: bool, ch: ChannelView): (r: SocketState)
    ensures r.channels == s.channels[ch.binding := ch.id]
    ensures r.routes == s.routes && r.nextId == s.nextId
    ensures r.trace == s.trace + [Hooked(ch.id, batchEnabled)]
  {
    s.(channels := s.channels[ch.binding := ch.id], trace := s.trace + [Hooked(ch.id, batchEnabled)])
  }

  /** Connect: a new outbound channel for the binding is allocated, hooked up
      and told to connect. */
  function AfterConnect(s: SocketState, batchEnabled: bool, b: Binding): (r: (SocketState, ChannelId))
    ensures r.1 == s.nextId && r.0.nextId == s.nextId + 1
    ensures r.0.channels == s.channels[b := r.1] && r.0.routes == s.routes
    ensures r.0.trace == s.trace + [Hooked(r.1, batchEnabled), StartConnect(r.1)]
  {
    var ch := ChannelView(s.nextId, b, Outbound, EmptyGuid);
    var h := AfterHookup(s.(nextId := s.nextId + 1), batchEnabled, ch);
    (h.(trace := h.trace + [StartConnect(ch.id)]), ch.id)
  }

  /** Hook-up and connect keep every known channel allocated, and the channel
      a connect allocates is one the socket did not know. */
  lemma ConnectAllocatesFresh(s: SocketState, batchEnabled: bool, b: Binding)
    requires Allocated(s)
    ensures var (r, id) := AfterConnect(s, batchEnabled, b);
      Allocated(r) && id !in s.channels.Values && id !in s.routes.Values
  {
  }

  /** ChannelInitialized: the route to the peer's node id is added only when
      none exists, so the first channel to a node keeps the route. */
  function AfterChannelInitialized(s: SocketState, ch: ChannelView): (r: SocketState)
    ensures ch.connectedTo in s.routes ==> r == s
    ensures ch.connectedTo !in s.routes ==> r == s.(routes := s.routes[ch.connectedTo := ch.id])
    ensures ch.connectedTo in r.routes
  {
    if ch.connectedTo in s.routes then s else s.(routes := s.routes[ch.connectedTo := ch.id])
  }

  /** Two channels to the same node initialized in turn: the earlier one holds the route. */
  lemma FirstChannelWins(s: SocketState, c1: ChannelView, c2: ChannelView)
    requires c1.connectedTo == c2.connectedTo && c1.connectedTo !in s.routes
    ensures AfterChannelInitialized(AfterChannelInitialized(s, c1), c2).routes[c1.connectedTo] == c1.id
  {
  }

  /** ChannelAvailable: the channel goes to the dispatcher's channel queue. */
  function AfterChannelAvailable(s: SocketState, ch: ChannelView): (r: SocketState)
    ensures r.channels == s.channels && r.routes == s.routes && r.nextId == s.nextId
    ensures r.trace == s.trace + [DispatchChannel(ch.id)]
  {
    s.(trace := s.trace + [DispatchChannel(ch.id)])
  }

  /** The channel's Initialized event runs both handlers attached to it, in
      the order they were attached: the route table first, then the dispatcher. */
  function AfterInitializedRaised(s: SocketState, ch: ChannelView): (r: SocketState)
    ensures r == AfterChannelAvailable(AfterChannelInitialized(s, ch), ch)
    ensures r.routes[ch.connectedTo] == (if ch.connectedTo in s.routes then s.routes[ch.connectedTo] else ch.id)
  {
    var i := AfterChannelInitialized(s, ch);
    i.(trace := i.trace + [DispatchChannel(ch.id)])
  }

  /** ChannelDisconnected: the channel is disposed, its binding entry and its
      peer's route entry are removed, subscribers hear of it, and only an
      outbound channel is replaced by a fresh connect to the same binding. */
  function AfterChannelDisconnected(s: SocketState, batchEnabled: bool, subscribers: set<Subscription>, ch: ChannelView)
    : (r: SocketState)
    ensures r.routes == s.routes - {ch.connectedTo}
    ensures ch.direction == Inbound ==> r.channels == s.channels - {ch.binding} && r.nextId == s.nextId
    ensures ch.direction == Outbound ==> r.channels == (s.channels - {ch.binding})[ch.binding := s.nextId]
                                           && r.nextId == s.nextId + 1
    ensures r.trace == s.trace + [Dispose(ch.id)]
                     + (if OnDisconnected in subscribers then [DisconnectedUp(ch.binding)] else [])
                     + (if ch.direction == Outbound then [Hooked(s.nextId, batchEnabled), StartConnect(s.nextId)] else [])
  {
    var d := s.(channels := s.channels - {ch.binding},
                routes := s.routes - {ch.connectedTo},
                trace := s.trace + [Dispose(ch.id)]);
    var e := if OnDisconnected in subscribers then d.(trace := d.trace + [DisconnectedUp(ch.binding)]) else d;
    if ch.direction == Outbound then AfterConnect(e, batchEnabled, ch.binding).0 else e
  }

  /** After a disconnect the route to the peer is gone, and the binding holds a
      channel again exactly when the lost one was outbound; that channel is a
      new one, unknown to the socket before, whenever the socket's ids were
      allocated by it. */
  lemma DisconnectReconnectsOutboundOnly(s: SocketState, batchEnabled: bool, subscribers: set<Subscription>,
                                         ch: ChannelView)
    requires Allocated(s)
    ensures var r := AfterChannelDisconnected(s, batchEnabled, subscribers, ch);
      && ch.connectedTo !in r.routes
      && (ch.binding in r.channels <==> ch.direction == Outbound)
      && (ch.direction == Outbound ==> r.channels[ch.binding] !in s.channels.Values
                                       && r.channels[ch.binding] !in s.routes.Values)
      && Allocated(r)
  {
  }

  /** The route is removed by the peer's node id alone, whichever channel held
      it: when two channels reach the same node and the later one, which never
      held the route, disconnects, the earlier one keeps its binding entry but
      the node is no longer routable, so answers to it fail. */
  lemma LaterDisconnectDropsEarlierRoute(s: SocketState, batchEnabled: bool, subscribers: set<Subscription>,
                                         c1: ChannelView, c2: ChannelView)
    requires c1.connectedTo == c2.connectedTo && c1.connectedTo !in s.routes
    requires c1.binding in s.channels && c1.binding != c2.binding
    ensures var i := AfterChannelInitialized(AfterChannelInitialized(s, c1), c2);
      var r := AfterChannelDisconnected(i, batchEnabled, subscribers, c2);
      && i.routes[c1.connectedTo] == c1.id
      && c1.connectedTo !in r.routes
      && c1.binding in r.channels && r.channels[c1.binding] == s.channels[c1.binding]
  {
  }

  /** The Received events a letter gives rise to: none without a subscriber;
      a Batch letter gives one per part, deserialized, in part order; any
      other letter gives exactly one. */
  function ReceivedEvents(subscribers: set<Subscription>, deserialize: Bytes -> Letter, l: Letter): (r: seq<SocketEvent>)
    ensures OnReceived !in subscribers ==> r == []
    ensures OnReceived in subscribers && !l.IsBatch() ==> r == [ReceivedUp(l)]
    ensures OnReceived in subscribers && l.IsBatch() ==> |r| == |l.parts|
  {
    if OnReceived !in subscribers then []
    else if l.IsBatch() then ReceivedUpEach(Unpack(l.parts, deserialize))
    else [ReceivedUp(l)]
  }

  /** One ReceivedUp event per letter, in order. */
  function ReceivedUpEach(ls: seq<Letter>): (r: seq<SocketEvent>)
    ensures |r| == |ls|
    ensures forall i :: 0 <= i < |ls| ==> r[i] == ReceivedUp(ls[i])
  {
    if ls == [] then [] else [ReceivedUp(ls[0])] + ReceivedUpEach(ls[1..])
  }

  lemma ReceivedUpEachSnoc(ls: seq<Letter>, l: Letter)
    ensures ReceivedUpEach(ls + [l]) == ReceivedUpEach(ls) + [ReceivedUp(l)]
  {
  }

  /** Part i of a received batch is announced at position i, deserialized. */
  lemma ReceivedBatchInPartOrder(subscribers: set<Subscription>, deserialize: Bytes -> Letter, l: Letter, i: nat)
    requires OnReceived in subscribers && l.IsBatch() && i < |l.parts|
    ensures ReceivedEvents(subscribers, deserialize, l)[i] == ReceivedUp(deserialize(l.parts[i]))
  {
  }

  /** A batch built from some letters is announced as exactly those letters,
      in order, when the codec round-trips. */
  lemma ReceivedBatchYieldsOriginals(subscribers: set<Subscription>, serialize: Letter -> Bytes,
                                     deserialize: Bytes -> Letter, ls: seq<Letter>)
    requires OnReceived in subscribers
    requires forall x :: deserialize(serialize(x)) == x
    ensures ReceivedEvents(subscribers, deserialize, BuildBatch(ls, serialize)) == ReceivedUpEach(ls)
  {
    BatchRoundTrip(ls, serialize, deserialize);
  }

  /** ChannelReceived only raises events. */
  function AfterChannelReceived(s: SocketState, subscribers: set<Subscription>, deserialize: Bytes -> Letter, l: Letter)
    : (r: SocketState)
    ensures r.channels == s.channels && r.routes == s.routes && r.nextId == s.nextId
    ensures r.trace == s.trace + ReceivedEvents(subscribers, deserialize, l)
  {
    s.(trace := s.trace + ReceivedEvents(subscribers, deserialize, l))
  }

  /** ChannelSent and ChannelConnected pass the event on when someone listens. */
  function AfterChannelSent(s: SocketState, subscribers: set<Subscription>, l: Letter): (r: SocketState)
    ensures r.(trace := s.trace) == s
    ensures r.trace == s.trace + (if OnSent in subscribers then [SentUp(l)] else [])
  {
    if OnSent in subscribers then s.(trace := s.trace + [SentUp(l)]) else s
  }

  function AfterChannelConnected(s: SocketState, subscribers: set<Subscription>, ch: ChannelView): (r: SocketState)
    ensures r.(trace := s.trace) == s
    ensures r.trace == s.trace + (if OnConnected in subscribers then [ConnectedUp(ch.binding)] else [])
  {
    if OnConnected in subscribers then s.(trace := s.trace + [ConnectedUp(ch.binding)]) else s
  }

  datatype FailureRoute = DiscardIt | RequeueIt

  /** The failure policy: a multicast letter is always discarded; otherwise a
      letter is requeued exactly when it asks for it. */
  function FailureAction(opts: LetterOptions): (a: FailureRoute)
    ensures a == RequeueIt <==> Multicast !in opts && Requeue in opts
  {
    if Multicast in opts then DiscardIt
    else if Requeue in opts then RequeueIt
    else DiscardIt
  }

  /** Discard: subscribers hear of a discarded letter unless it asked to be
      discarded silently; nothing else happens. */
  function DiscardEvents(subscribers: set<Subscription>, ch: ChannelView, l: Letter): (r: seq<SocketEvent>)
    ensures r == [DiscardedUp(ch.binding, l)] <==> OnDiscarded in subscribers && SilentDiscard !in l.options
    ensures r == [] <==> !(OnDiscarded in subscribers && SilentDiscard !in l.options)
  {
    if OnDiscarded in subscribers && SilentDiscard !in l.options then [DiscardedUp(ch.binding, l)] else []
  }

  /** Requeue: the letter goes back to the dispatcher, and subscribers hear of it once. */
  function RequeueEvents(subscribers: set<Subscription>, l: Letter): (r: seq<SocketEvent>)
    ensures |r| == (if OnRequeued in subscribers then 2 else 1)
    ensures r[0] == DispatchLetter(l)
    ensures |r| == 2 ==> r[1] == RequeuedUp(l)
  {
    [DispatchLetter(l)] + (if OnRequeued in subscribers then [RequeuedUp(l)] else [])
  }

  /** ChannelFailedToSend: the failure policy picks Discard or Requeue. */
  function AfterChannelFailedToSend(s: SocketState, subscribers: set<Subscription>, ch: ChannelView, l: Letter)
    : (r: SocketState)
    ensures r.channels == s.channels && r.routes == s.routes && r.nextId == s.nextId
    ensures FailureAction(l.options) == RequeueIt ==> r.trace == s.trace + RequeueEvents(subscribers, l)
    ensures FailureAction(l.options) == DiscardIt ==> r.trace == s.trace + DiscardEvents(subscribers, ch, l)
  {
    match FailureAction(l.options)
    case RequeueIt => s.(trace := s.trace + RequeueEvents(subscribers, l))
    case DiscardIt => s.(trace := s.trace + DiscardEvents(subscribers, ch, l))
  }

  /** A failed letter goes back to the dispatcher exactly when it asked to be
      requeued and is not multicast; a multicast letter never does. */
  lemma FailedLetterRequeuedIff(s: SocketState, subscribers: set<Subscription>, ch: ChannelView, l: Letter)
    ensures var r := AfterChannelFailedToSend(s, subscribers, ch, l);
      (DispatchLetter(l) in r.trace[|s.trace|..]) <==> (Multicast !in l.options && Requeue in l.options)
  {
    var r := AfterChannelFailedToSend(s, subscribers, ch, l);
    assert r.trace[|s.trace|..] == (if FailureAction(l.options) == RequeueIt then RequeueEvents(subscribers, l)
                                    else DiscardEvents(subscribers, ch, l));
  }

  /** The socket as an object whose dictionaries its handlers update in place. */
  class HyperSocket {
    const batchEnabled: bool
    const subscribers: set<Subscription>
    const deserialize: Bytes -> Letter

    var channels: map<Binding, ChannelId>
    var routeChannels: map<Guid, ChannelId>
    var nextId: ChannelId
    var trace: seq<SocketEvent>

    function State(): SocketState
      reads this
    {
      SocketState(channels, routeChannels, nextId, trace)
    }

    constructor (options: BatchOptions, subscribers: set<Subscription>, deserialize: Bytes -> Letter)
      ensures batchEnabled == options.enabled && this.subscribers == subscribers && this.deserialize == deserialize
      ensures State() == SocketState(map[], map[], 0, [])
    {
      batchEnabled := options.enabled;
      this.subscribers := subscribers;
      this.deserialize := deserialize;
      channels, routeChannels, nextId, trace := map[], map[], 0, [];
    }

    method Connect(b: Binding) returns (id: ChannelId)
      modifies this
      ensures (State(), id) == AfterConnect(old(State()), batchEnabled, b)
    {
      id := nextId;
      nextId := nextId + 1;
      HookupChannel(ChannelView(id, b, Outbound, EmptyGuid));
      trace := trace + [StartConnect(id)];
    }

    method Send(l: Letter)
      modifies this`trace
      ensures State() == AfterSend(old(State()), l)
    {
      trace := trace + [DispatchLetter(l)];
    }

    method Answer(answer: Letter, answeringTo: Letter) returns (ok: bool)
      modifies this`trace
      ensures (State(), ok) == AfterAnswer(old(State()), answer, answeringTo)
    {
      if |answeringTo.address| == 0 {
        return false;
      }
      var address := answeringTo.address[0];
      if address in routeChannels {
        trace := trace + [ChannelEnqueue(routeChannels[address], answer)];
      }
      return true;
    }

    method HookupChannel(ch: ChannelView)
      modifies this`channels, this`trace
      ensures State() == AfterHookup(old(State()), batchEnabled, ch)
    {
      channels := channels[ch.binding := ch.id];
      trace := trace + [Hooked(ch.id, batchEnabled)];
    }

    method ChannelInitialized(ch: ChannelView)
      modifies this`routeChannels
      ensures State() == AfterChannelInitialized(old(State()), ch)
    {
      if ch.connectedTo !in routeChannels {
        routeChannels := routeChannels[ch.connectedTo := ch.id];
      }
    }

    method ChannelAvailable(ch: ChannelView)
      modifies this`trace
      ensures State() == AfterChannelAvailable(old(State()), ch)
    {
      trace := trace + [DispatchChannel(ch.id)];
    }

    /** The channel's Initialized event, delivered to its handlers in attachment order. */
    method OnChannelInitialized(ch: ChannelView)
      modifies this`routeChannels, this`trace
      ensures State() == AfterInitializedRaised(old(State()), ch)
    {
      ChannelInitialized(ch);
      ChannelAvailable(ch);
    }

    method ChannelConnected(ch: ChannelView)
      modifies this`trace
      ensures State() == AfterChannelConnected(old(State()), subscribers, ch)
    {
      if OnConnected in subscribers {
        trace := trace + [ConnectedUp(ch.binding)];
      }
    }

    method ChannelDisconnected(ch: ChannelView)
      modifies this
      ensures State() == AfterChannelDisconnected(old(State()), batchEnabled, subscribers, ch)
    {
      trace := trace + [Dispose(ch.id)];
      var binding := ch.binding;
      channels := channels - {binding};
      routeChannels := routeChannels - {ch.connectedTo};
      if OnDisconnected in subscribers {
        trace := trace + [DisconnectedUp(binding)];
      }
      if ch.direction == Outbound {
        var _ := Connect(binding);
      }
    }

    method ChannelReceived(l: Letter)
      modifies this`trace
      ensures State() == AfterChannelReceived(old(State()), subscribers, deserialize, l)
    {
      if OnReceived !in subscribers {
        return;
      }
      if l.IsBatch() {
        for i := 0 to |l.parts|
          invariant trace == old(trace) + ReceivedUpEach(Unpack(l.parts[..i], deserialize))
        {
          ReceivedUpEachSnoc(Unpack(l.parts[..i], deserialize), deserialize(l.parts[i]));
          assert Unpack(l.parts[..i + 1], deserialize) == Unpack(l.parts[..i], deserialize) + [deserialize(l.parts[i])];
          trace := trace + [ReceivedUp(deserialize(l.parts[i]))];
        }
        assert l.parts[..|l.parts|] == l.parts;
      } else {
        trace := trace + [ReceivedUp(l)];
      }
    }

    method ChannelSent(l: Letter)
      modifies this`trace
      ensures State() == AfterChannelSent(old(State()), subscribers, l)
    {
      if OnSent in subscribers {
        trace := trace + [SentUp(l)];
      }
    }

    method ChannelFailedToSend(ch: ChannelView, l: Letter)
      modifies this`trace
      ensures State() == AfterChannelFailedToSend(old(State()), subscribers, ch, l)
    {
      if Multicast in l.options {
        Discard(ch, l);
      } else if LetterOption.Requeue in l.options {
        Requeue(l);
      } else {
        Discard(ch, l);
      }
    }

    method Discard(ch: ChannelView, l: Letter)
      modifies this`trace
      ensures trace == old(trace) + DiscardEvents(subscribers, ch, l)
    {
      if OnDiscarded in subscribers && SilentDiscard !in l.options {
        trace := trace + [DiscardedUp(ch.binding, l)];
      }
    }

    method Requeue(l: Letter)
      modifies this`trace
      ensures trace == old(trace) + RequeueEvents(subscribers, l)
    {
      trace := trace + [DispatchLetter(l)];
      if OnRequeued in subscribers {
        trace := trace + [RequeuedUp(l)];
      }
    }
  }
}
