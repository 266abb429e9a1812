/** The typed correlation layer of Hyperletter/Typed/TypedSocket.cs: values
    travel as two-part letters (type metadata, then the value), requests wait
    for replies under their letter id in the outstanding map, and received
    values are handed to the handlers registered for their type and for the
    interfaces it implements. Serialization, type lookup and the handlers
    themselves are parameters; what the layer asks of the socket beneath it
    and of outstandings and handlers is recorded as a trace of TypedEvents. */
module Typed {
  import opened Letters

  /** The name a type is looked up by. */
  type TypeName = seq<char>

  /** An application value: the name of its run-time type and its content. */
  datatype Value = Value(typeName: TypeName, content: Bytes)

  /** What the type lookup knows of a resolved type. */
  datatype TypeInfo = TypeInfo(name: TypeName, interfaces: seq<TypeName>)

  /** The transport serializer: the metadata (a type name) and the value. */
  datatype Codec = Codec(
    serializeMetadata: TypeName -> Bytes,
    deserializeMetadata: Bytes -> TypeName,
    serializeValue: Value -> Bytes)

  type CallbackId = nat

  /** A registered handler: a handler type built per message, or a delegate. */
  datatype Registration = HandlerRegistration(handler: nat) | DelegateRegistration(handler: nat)

  /** An outstanding request: a blocked sender, or a reply callback with its request. */
  datatype Outstanding = Blocking | Delegate(request: Value, callback: CallbackId)

  datatype TypedEvent =
    /** The letter was passed to the socket's Send. */
    | SocketSend(letter: Letter)
    /** SetResult was called on the outstanding with the reply. */
    | Resolved(id: Guid, outstanding: Outstanding, reply: Letter)
    /** The registration was invoked with the letter and its resolved type. */
    | Invoked(registration: Registration, letter: Letter, typeName: TypeName)

  /** How a call that adds an outstanding ends: normally, with the wait
      throwing, or with the dictionary refusing a duplicate id. */
  datatype Outcome = Done | WaitFailed | DuplicateKey

  datatype TypedState = TypedState(
    outstandings: map<Guid, Outstanding>,
    registry: map<TypeName, seq<Registration>>,
    trace: seq<TypedEvent>)

  /** CreateLetter: exactly two parts, the serialized metadata naming the
      value's type, then the serialized value. The id comes from the new
      letter. */
  function CreateLetter(codec: Codec, v: Value, opts: LetterOptions, id: Guid): (r: Letter)
    ensures |r.parts| == 2
    ensures r.parts[0] == codec.serializeMetadata(v.typeName) && r.parts[1] == codec.serializeValue(v)
    ensures r.id == id && r.options == opts && r.letterType == User
  {
    Letter(id, User, opts, [], [codec.serializeMetadata(v.typeName), codec.serializeValue(v)])
  }

  /** CreateAnswer: the letter CreateLetter builds, with its id replaced by the request's. */
  function CreateAnswer(codec: Codec, v: Value, answeringTo: Letter, opts: LetterOptions, id: Guid): (r: Letter)
    ensures r.id == answeringTo.id
    ensures r.parts == CreateLetter(codec, v, opts, id).parts && r.options == opts
    ensures r.letterType == User && r.address == []
  {
    CreateLetter(codec, v, opts, id).(id := answeringTo.id)
  }

  /** The id a fresh letter would have had plays no part in an answer. */
  lemma AnswerIgnoresFreshId(codec: Codec, v: Value, answeringTo: Letter, opts: LetterOptions, id1: Guid, id2: Guid)
    ensures CreateAnswer(codec, v, answeringTo, opts, id1) == CreateAnswer(codec, v, answeringTo, opts, id2)
  {
  }

  /** A letter built here carries its type name and value in the layout the
      receiving side reads back. */
  lemma LetterLayoutRoundTrip(codec: Codec, v: Value, opts: LetterOptions, id: Guid)
    requires forall n :: codec.deserializeMetadata(codec.serializeMetadata(n)) == n
    ensures var l := CreateLetter(codec, v, opts, id);
      |l.parts| == 2 && codec.deserializeMetadata(l.parts[0]) == v.typeName
  {
  }

  /** The registry lookup: unknown types have no registrations. */
  function Get(registry: map<TypeName, seq<Registration>>, t: TypeName): (r: seq<Registration>)
    ensures t !in registry ==> r == []
    ensures t in registry ==> r == registry[t]
  {
    if t in registry then registry[t] else []
  }

  /** Register appends the registration to its type's list. */
  function AfterRegister(s: TypedState, t: TypeName, reg: Registration): (r: TypedState)
    ensures Get(r.registry, t) == Get(s.registry, t) + [reg]
    ensures forall u :: u != t ==> Get(r.registry, u) == Get(s.registry, u)
    ensures r.outstandings == s.outstandings && r.trace == s.trace
  {
    s.(registry := s.registry[t := Get(s.registry, t) + [reg]])
  }

  /** The registrations of each interface in turn. */
  function FromInterfaces(registry: map<TypeName, seq<Registration>>, interfaces: seq<TypeName>)
    : seq<Registration>
  {
    if interfaces == [] then [] else Get(registry, interfaces[0]) + FromInterfaces(registry, interfaces[1..])
  }

  /** GetMatchingRegistrations: the exact type's registrations first, then
      each interface's in interface order. */
  function MatchingRegistrations(registry: map<TypeName, seq<Registration>>, t: TypeInfo): (r: seq<Registration>)
    ensures |r| >= |Get(registry, t.name)| && r[..|Get(registry, t.name)|] == Get(registry, t.name)
    ensures r[|Get(registry, t.name)|..] == FromInterfaces(registry, t.interfaces)
  {
    Get(registry, t.name) + FromInterfaces(registry, t.interfaces)
  }

  /** A registration is matched exactly when it is registered for the type
      itself or for one of its interfaces. */
  lemma {:induction false} FromInterfacesMembership(registry: map<TypeName, seq<Registration>>,
                                                    interfaces: seq<TypeName>, reg: Registration)
    ensures reg in FromInterfaces(registry, interfaces) <==>
            exists j :: 0 <= j < |interfaces| && reg in Get(registry, interfaces[j])
    decreases |interfaces|
  {
    if interfaces != [] {
      FromInterfacesMembership(registry, interfaces[1..], reg);
      if reg in FromInterfaces(registry, interfaces[1..]) {
        var j :| 0 <= j < |interfaces[1..]| && reg in Get(registry, interfaces[1..][j]);
        assert reg in Get(registry, interfaces[j + 1]);
      }
      if exists j :: 0 <= j < |interfaces| && reg in Get(registry, interfaces[j]) {
        var j :| 0 <= j < |interfaces| && reg in Get(registry, interfaces[j]);
        if j > 0 {
          assert reg in Get(registry, interfaces[1..][j - 1]);
        }
      }
    }
  }

  lemma MatchingMembership(registry: map<TypeName, seq<Registration>>, t: TypeInfo, reg: Registration)
    ensures reg in MatchingRegistrations(registry, t) <==>
            reg in Get(registry, t.name) || exists j :: 0 <= j < |t.interfaces| && reg in Get(registry, t.interfaces[j])
  {
    FromInterfacesMembership(registry, t.interfaces, reg);
  }

  /** One Invoked event per registration, in order. */
  function InvokeEach(regs: seq<Registration>, l: Letter, t: TypeName): (r: seq<TypedEvent>)
    ensures |r| == |regs|
    ensures forall i :: 0 <= i < |regs| ==> r[i] == Invoked(regs[i], l, t)
  {
    if regs == [] then [] else [Invoked(regs[0], l, t)] + InvokeEach(regs[1..], l, t)
  }

  lemma InvokeEachSnoc(regs: seq<Registration>, reg: Registration, l: Letter, t: TypeName)
    ensures InvokeEach(regs + [reg], l, t) == InvokeEach(regs, l, t) + [Invoked(reg, l, t)]
  {
  }

  /** TriggerOutstanding: a reply with an id resolves the request waiting
      under that id once and removes it; an empty id or an unknown id
      changes nothing. */
  function AfterTriggerOutstanding(s: TypedState, l: Letter): (r: TypedState)
    ensures r.registry == s.registry
    ensures l.id == EmptyGuid || l.id !in s.outstandings ==> r == s
    ensures l.id != EmptyGuid && l.id in s.outstandings ==>
              r.outstandings == s.outstandings - {l.id}
              && r.trace == s.trace + [Resolved(l.id, s.outstandings[l.id], l)]
  {
    if l.id == EmptyGuid then s
    else if l.id in s.outstandings then
      s.(outstandings := s.outstandings - {l.id}, trace := s.trace + [Resolved(l.id, s.outstandings[l.id], l)])
    else s
  }

  /** SocketOnReceived: a letter without exactly two parts, or whose metadata
      names no known type, is ignored; otherwise the outstanding request is
      resolved first and every matching registration is invoked after. */
  function AfterReceived(s: TypedState, codec: Codec, resolve: TypeName -> Option<TypeInfo>, l: Letter)
    : (r: TypedState)
    ensures |l.parts| != 2 ==> r == s
    ensures |l.parts| == 2 && resolve(codec.deserializeMetadata(l.parts[0])).None? ==> r == s
    ensures |l.parts| == 2 && resolve(codec.deserializeMetadata(l.parts[0])).Some? ==>
      var t := resolve(codec.deserializeMetadata(l.parts[0])).value;
      var o := AfterTriggerOutstanding(s, l);
      r.outstandings == o.outstandings && r.registry == s.registry
      && r.trace == o.trace + InvokeEach(MatchingRegistrations(s.registry, t), l, t.name)
  {
    if |l.parts| != 2 then s
    else
      match resolve(codec.deserializeMetadata(l.parts[0]))
      case None => s
      case Some(t) =>
        var o := AfterTriggerOutstanding(s, l);
        o.(trace := o.trace + InvokeEach(MatchingRegistrations(o.registry, t), l, t.name))
  }

  /** Receiving never adds an outstanding and never touches the registry. */
  lemma ReceivedOnlyRemoves(s: TypedState, codec: Codec, resolve: TypeName -> Option<TypeInfo>, l: Letter)
    ensures var r := AfterReceived(s, codec, resolve, l);
      r.registry == s.registry && r.outstandings.Keys <= s.outstandings.Keys
      && r.outstandings.Keys >= s.outstandings.Keys - {l.id}
  {
  }

  /** Send without a reply: the letter goes to the socket, nothing is kept. */
  function AfterSend(s: TypedState, codec: Codec, v: Value, opts: LetterOptions, id: Guid): (r: TypedState)
    ensures r.outstandings == s.outstandings && r.registry == s.registry
    ensures r.trace == s.trace + [SocketSend(CreateLetter(codec, v, opts, id))]
  {
    s.(trace := s.trace + [SocketSend(CreateLetter(codec, v, opts, id))])
  }

  /** Adding an outstanding under the letter's id and sending the letter;
      the dictionary refuses an id already present, and then nothing is sent.
      The letter is sent through Send for requests and answers alike. */
  function AddAndSend(s: TypedState, l: Letter, o: Outstanding): (r: (TypedState, bool))
    ensures r.1 <==> l.id !in s.outstandings
    ensures !r.1 ==> r.0 == s
    ensures r.1 ==> r.0.outstandings == s.outstandings[l.id := o] && r.0.registry == s.registry
                    && r.0.trace == s.trace + [SocketSend(l)]
  {
    if l.id in s.outstandings then (s, false)
    else (s.(outstandings := s.outstandings[l.id := o], trace := s.trace + [SocketSend(l)]), true)
  }

  /** The blocking shape: add, send, wait, and remove in `finally` whether the
      wait returns or throws; a refused add throws before the `try`, so then
      nothing is removed. Either way the map ends as it began. */
  function AddSendWaitRemove(s: TypedState, l: Letter, waitReturns: bool): (r: (TypedState, Outcome))
    ensures r.0.outstandings == s.outstandings && r.0.registry == s.registry
    ensures r.1 == DuplicateKey <==> l.id in s.outstandings
    ensures r.1 != DuplicateKey ==> l.id !in r.0.outstandings && r.0.trace == s.trace + [SocketSend(l)]
                                    && (r.1 == Done <==> waitReturns)
    ensures r.1 == DuplicateKey ==> r.0 == s
  {
    var (a, added) := AddAndSend(s, l, Blocking);
    if !added then (s, DuplicateKey)
    else (a.(outstandings := a.outstandings - {l.id}), if waitReturns then Done else WaitFailed)
  }

  /** The blocking Send: the request carries UniqueId. */
  function AfterSendBlocking(s: TypedState, codec: Codec, v: Value, opts: LetterOptions, id: Guid, waitReturns: bool)
    : (r: (TypedState, Outcome))
    ensures r.0.outstandings == s.outstandings && r.0.registry == s.registry
    ensures r.1 == DuplicateKey <==> id in s.outstandings
    ensures r.1 != DuplicateKey ==> id !in r.0.outstandings
                                    && r.0.trace == s.trace + [SocketSend(CreateLetter(codec, v, opts + {UniqueId}, id))]
    ensures r.1 == DuplicateKey ==> r.0 == s
  {
    AddSendWaitRemove(s, CreateLetter(codec, v, opts + {UniqueId}, id), waitReturns)
  }

  /** The callback Send: the request carries UniqueId and its callback stays
      outstanding under the letter's id until a reply arrives. */
  function AfterSendWithCallback(s: TypedState, codec: Codec, v: Value, cb: CallbackId, opts: LetterOptions, id: Guid)
    : (r: (TypedState, bool))
    ensures r.1 <==> id !in s.outstandings
    ensures r.1 ==> r.0.outstandings == s.outstandings[id := Delegate(v, cb)] && r.0.registry == s.registry
                    && r.0.trace == s.trace + [SocketSend(CreateLetter(codec, v, opts + {UniqueId}, id))]
    ensures !r.1 ==> r.0 == s
  {
    AddAndSend(s, CreateLetter(codec, v, opts + {UniqueId}, id), Delegate(v, cb))
  }

  /** Answer without a reply: sent through the socket's Send, id copied from the request. */
  function AfterAnswer(s: TypedState, codec: Codec, v: Value, answeringTo: Letter, opts: LetterOptions, id: Guid)
    : (r: TypedState)
    ensures r.outstandings == s.outstandings && r.registry == s.registry
    ensures |r.trace| == |s.trace| + 1 && r.trace[..|s.trace|] == s.trace
    ensures r.trace[|s.trace|]
            == SocketSend(Letter(answeringTo.id, User, opts, [], [codec.serializeMetadata(v.typeName), codec.serializeValue(v)]))
  {
    s.(trace := s.trace + [SocketSend(CreateAnswer(codec, v, answeringTo, opts, id))])
  }

  /** Answer with a reply callback: Answer, UniqueId and Ack are added, and
      the callback waits under the request's id. */
  function AfterAnswerWithCallback(s: TypedState, codec: Codec, v: Value, answeringTo: Letter, opts: LetterOptions,
                                   cb: CallbackId, id: Guid)
    : (r: (TypedState, bool))
    ensures r.1 <==> answeringTo.id !in s.outstandings
    ensures r.1 ==> r.0.outstandings == s.outstandings[answeringTo.id := Delegate(v, cb)] && r.0.registry == s.registry
    ensures r.1 ==> |r.0.trace| == |s.trace| + 1 && r.0.trace[..|s.trace|] == s.trace
                    && r.0.trace[|s.trace|]
                       == SocketSend(Letter(answeringTo.id, User, opts + {LetterOption.Answer, UniqueId, LetterOption.Ack}, [],
                                            [codec.serializeMetadata(v.typeName), codec.serializeValue(v)]))
    ensures !r.1 ==> r.0 == s
  {
    AddAndSend(s, CreateAnswer(codec, v, answeringTo, opts + {LetterOption.Answer, UniqueId, LetterOption.Ack}, id),
               Delegate(v, cb))
  }

  /** The blocking Answer: the options are used as given. */
  function AfterAnswerBlocking(s: TypedState, codec: Codec, v: Value, answeringTo: Letter, opts: LetterOptions,
                               id: Guid, waitReturns: bool)
    : (r: (TypedState, Outcome))
    ensures r.0.outstandings == s.outstandings && r.0.registry == s.registry
    ensures r.1 == DuplicateKey <==> answeringTo.id in s.outstandings
    ensures r.1 != DuplicateKey ==> answeringTo.id !in r.0.outstandings
                                    && r.0.trace == s.trace + [SocketSend(CreateAnswer(codec, v, answeringTo, opts, id))]
    ensures r.1 == DuplicateKey ==> r.0 == s
  {
    AddSendWaitRemove(s, CreateAnswer(codec, v, answeringTo, opts, id), waitReturns)
  }

  /** Request and reply correlate: a reply built by CreateAnswer for a
      callback request resolves that request's callback once, with the reply,
      and removes it, so the same reply arriving again resolves nothing. */
  lemma CallbackReplyResolvesOnce(s: TypedState, codec: Codec, resolve: TypeName -> Option<TypeInfo>,
                                  req: Value, cb: CallbackId, opts: LetterOptions, id: Guid,
                                  answer: Value, answerOpts: LetterOptions, answerId: Guid)
    requires id != EmptyGuid && id !in s.outstandings
    requires forall n :: codec.deserializeMetadata(codec.serializeMetadata(n)) == n
    requires resolve(answer.typeName).Some?
    ensures var s1 := AfterSendWithCallback(s, codec, req, cb, opts, id).0;
      var reply := CreateAnswer(codec, answer, CreateLetter(codec, req, opts + {UniqueId}, id), answerOpts, answerId);
      var s2 := AfterReceived(s1, codec, resolve, reply);
      && s2.outstandings == s.outstandings
      && s2.trace[|s1.trace|] == Resolved(id, Delegate(req, cb), reply)
      && AfterTriggerOutstanding(s2, reply) == s2
  {
    var s1 := AfterSendWithCallback(s, codec, req, cb, opts, id).0;
    assert s1.outstandings == s.outstandings[id := Delegate(req, cb)];
    var reply := CreateAnswer(codec, answer, CreateLetter(codec, req, opts + {UniqueId}, id), answerOpts, answerId);
    assert reply.id == id && |reply.parts| == 2;
    assert codec.deserializeMetadata(reply.parts[0]) == answer.typeName;
    var o := AfterTriggerOutstanding(s1, reply);
    assert s1.outstandings - {id} == s.outstandings;
    assert o.outstandings == s.outstandings && o.trace == s1.trace + [Resolved(id, Delegate(req, cb), reply)];
    var s2 := AfterReceived(s1, codec, resolve, reply);
    assert s2.outstandings == o.outstandings;
  }

  /** With every registration for a type or its interfaces invoked, a received
      value reaches each handler registered for its exact type before any
      handler registered for an interface. */
  lemma ExactTypeHandlersFirst(s: TypedState, codec: Codec, resolve: TypeName -> Option<TypeInfo>, l: Letter, i: nat)
    requires |l.parts| == 2 && resolve(codec.deserializeMetadata(l.parts[0])).Some?
    requires i < |Get(s.registry, resolve(codec.deserializeMetadata(l.parts[0])).value.name)|
    ensures var t := resolve(codec.deserializeMetadata(l.parts[0])).value;
      var o := AfterTriggerOutstanding(s, l);
      AfterReceived(s, codec, resolve, l).trace[|o.trace| + i] == Invoked(Get(s.registry, t.name)[i], l, t.name)
  {
    var t := resolve(codec.deserializeMetadata(l.parts[0])).value;
    var m := MatchingRegistrations(s.registry, t);
    assert m[i] == Get(s.registry, t.name)[i];
  }

  /** The typed socket as an object whose dictionaries its calls update in place. */
  class TypedSocket {
    const codec: Codec
    const resolve: TypeName -> Option<TypeInfo>

    var outstandings: map<Guid, Outstanding>
    var registry: map<TypeName, seq<Registration>>
    var trace: seq<TypedEvent>

    function State(): TypedState
      reads this
    {
      TypedState(outstandings, registry, trace)
    }

    constructor (codec: Codec, resolve: TypeName -> Option<TypeInfo>)
      ensures this.codec == codec && this.resolve == resolve
      ensures State() == TypedState(map[], map[], [])
    {
      this.codec := codec;
      this.resolve := resolve;
      outstandings, registry, trace := map[], map[], [];
    }

    /** Both Register overloads: the registration kind is part of the value. */
    method Register(t: TypeName, reg: Registration)
      modifies this`registry
      ensures State() == AfterRegister(old(State()), t, reg)
    {
      var existing := Get(registry, t);
      registry := registry[t := existing + [reg]];
    }

    method Send(v: Value, opts: LetterOptions, id: Guid)
      modifies this`trace
      ensures State() == AfterSend(old(State()), codec, v, opts, id)
    {
      trace := trace + [SocketSend(CreateLetter(codec, v, opts, id))];
    }

    /** Adds the outstanding, refusing a duplicate id, then sends. */
    method Add(l: Letter, o: Outstanding) returns (added: bool)
      modifies this`outstandings, this`trace
      ensures (State(), added) == AddAndSend(old(State()), l, o)
    {
      if l.id in outstandings {
        return false;
      }
      outstandings := outstandings[l.id := o];
      trace := trace + [SocketSend(l)];
      return true;
    }

    method SendAndWait(l: Letter, waitReturns: bool) returns (outcome: Outcome)
      modifies this`outstandings, this`trace
      ensures (State(), outcome) == AddSendWaitRemove(old(State()), l, waitReturns)
    {
      var added := Add(l, Blocking);
      if !added {
        return DuplicateKey;
      }
      // the wait either returns or throws; the removal runs in both cases
      outstandings := outstandings - {l.id};
      outcome := if waitReturns then Done else WaitFailed;
    }

    method SendBlocking(v: Value, opts: LetterOptions, id: Guid, waitReturns: bool) returns (outcome: Outcome)
      modifies this`outstandings, this`trace
      ensures (State(), outcome) == AfterSendBlocking(old(State()), codec, v, opts, id, waitReturns)
    {
      outcome := SendAndWait(CreateLetter(codec, v, opts + {UniqueId}, id), waitReturns);
    }

    method SendWithCallback(v: Value, cb: CallbackId, opts: LetterOptions, id: Guid) returns (added: bool)
      modifies this`outstandings, this`trace
      ensures (State(), added) == AfterSendWithCallback(old(State()), codec, v, cb, opts, id)
    {
      added := Add(CreateLetter(codec, v, opts + {UniqueId}, id), Delegate(v, cb));
    }

    method Answer(v: Value, answeringTo: Letter, opts: LetterOptions, id: Guid)
      modifies this`trace
      ensures State() == AfterAnswer(old(State()), codec, v, answeringTo, opts, id)
    {
      trace := trace + [SocketSend(CreateAnswer(codec, v, answeringTo, opts, id))];
    }

    method AnswerWithCallback(v: Value, answeringTo: Letter, opts: LetterOptions, cb: CallbackId, id: Guid)
      returns (added: bool)
      modifies this`outstandings, this`trace
      ensures (State(), added) == AfterAnswerWithCallback(old(State()), codec, v, answeringTo, opts, cb, id)
    {
      var l := CreateAnswer(codec, v, answeringTo, opts + {LetterOption.Answer, UniqueId, LetterOption.Ack}, id);
      added := Add(l, Delegate(v, cb));
    }

    method AnswerBlocking(v: Value, answeringTo: Letter, opts: LetterOptions, id: Guid, waitReturns: bool)
      returns (outcome: Outcome)
      modifies this`outstandings, this`trace
      ensures (State(), outcome) == AfterAnswerBlocking(old(State()), codec, v, answeringTo, opts, id, waitReturns)
    {
      outcome := SendAndWait(CreateAnswer(codec, v, answeringTo, opts, id), waitReturns);
    }

    method SocketOnReceived(l: Letter)
      modifies this`outstandings, this`trace
      ensures State() == AfterReceived(old(State()), codec, resolve, l)
    {
      if |l.parts| != 2 {
        return;
      }
      var metadata := codec.deserializeMetadata(l.parts[0]);
      var messageType := resolve(metadata);
      if messageType.None? {
        return;
      }
      TriggerOutstanding(l);
      TriggerRegistrations(messageType.value, l);
    }

    method TriggerRegistrations(t: TypeInfo, l: Letter)
      modifies this`trace
      ensures trace == old(trace) + InvokeEach(MatchingRegistrations(registry, t), l, t.name)
    {
      InvokeAll(MatchingRegistrations(registry, t), l, t.name);
    }

    /** The foreach over the matching registrations. */
    method InvokeAll(regs: seq<Registration>, l: Letter, t: TypeName)
      modifies this`trace
      ensures trace == old(trace) + InvokeEach(regs, l, t)
    {
      for i := 0 to |regs|
        invariant trace == old(trace) + InvokeEach(regs[..i], l, t)
      {
        InvokeEachSnoc(regs[..i], regs[i], l, t);
        assert regs[..i + 1] == regs[..i] + [regs[i]];
        trace := trace + [Invoked(regs[i], l, t)];
      }
      assert regs[..|regs|] == regs;
    }

    method TriggerOutstanding(l: Letter)
      modifies this`outstandings, this`trace
      ensures State() == AfterTriggerOutstanding(old(State()), l)
    {
      if l.id == EmptyGuid {
        return;
      }
      if l.id in outstandings {
        trace := trace + [Resolved(l.id, outstandings[l.id], l)];
        outstandings := outstandings - {l.id};
      }
    }
  }
}
