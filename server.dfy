/**
 The signaling relay of server/index.js.

 For each connected socket the server registers four handlers, one per signaling event
 name, and each handler re-emits the event under the same name with the same payload
 through `socket.broadcast.emit`, that is, to every other connected socket. The
 connection and disconnection handlers only log.

 The set of connected sockets belongs to socket.io, not to this file; the model makes it
 explicit: connecting adds an id, disconnecting removes it (socket.io's behaviour), and
 what each socket has been sent is recorded in its inbox. An inbox outlives its socket's
 disconnection, as a record of what was delivered to it.

 `RelayState`, `Step` and `Run` give the relay's behaviour as functions over values;
 `RelayServer` is the stateful object whose handlers are proved to follow `Step`.
 */
module Server {
  import opened Signaling

  /** A socket.io connection id. */
  type ConnId = string

  datatype RelayState = RelayState(connected: set<ConnId>, inbox: map<ConnId, seq<Message>>)

  /** Every connected socket has an inbox. */
  predicate WellFormed(s: RelayState)
  {
    s.connected <= s.inbox.Keys
  }

  /** What the server reacts to: a socket connecting, disconnecting, or emitting an event. */
  datatype ServerEvent =
    | Connect(id: ConnId)
    | Disconnect(id: ConnId)
    | Receive(sender: ConnId, message: Message)

  /**
   A message from `sender` is delivered to `id` when the sender is connected (only then
   do its handlers run), the event is one of the four relayed names, and `id` is some
   other connected socket.
   */
  predicate Reaches(connected: set<ConnId>, sender: ConnId, m: Message, id: ConnId)
  {
    sender in connected && IsSignalingEvent(m.event) && id in connected && id != sender
  }

  /** `socket.broadcast.emit(event, data)` from `sender`, or nothing for an unhandled event. */
  function Broadcast(s: RelayState, sender: ConnId, m: Message): (r: RelayState)
    ensures r.connected == s.connected && r.inbox.Keys == s.inbox.Keys
  {
    RelayState(s.connected,
      map id | id in s.inbox :: AppendIf(s.inbox[id], Reaches(s.connected, sender, m, id), m))
  }

  /** One inbox after a broadcast: `m` is appended when it reaches this socket. */
  function AppendIf(box: seq<Message>, reaches: bool, m: Message): seq<Message>
  {
    if reaches then box + [m] else box
  }

  /** The membership after one event. */
  function Members(connected: set<ConnId>, e: ServerEvent): set<ConnId>
  {
    match e
    case Connect(id) => connected + {id}
    case Disconnect(id) => connected - {id}
    case Receive(_, _) => connected
  }

  /** The relay's reaction to one event. */
  function Step(s: RelayState, e: ServerEvent): (r: RelayState)
    ensures r.connected == Members(s.connected, e)
    ensures WellFormed(s) ==> WellFormed(r)
    ensures s.inbox.Keys <= r.inbox.Keys
  {
    match e
    case Connect(id) => RelayState(s.connected + {id}, if id in s.inbox then s.inbox else s.inbox[id := []])
    case Disconnect(id) => RelayState(s.connected - {id}, s.inbox)
    case Receive(sender, m) => Broadcast(s, sender, m)
  }

  /** The relay's reaction to a sequence of events, handled one at a time. */
  function Run(s: RelayState, trace: seq<ServerEvent>): (r: RelayState)
    ensures WellFormed(s) ==> WellFormed(r)
    ensures s.inbox.Keys <= r.inbox.Keys
    decreases |trace|
  {
    if trace == [] then s else Run(Step(s, trace[0]), trace[1..])
  }

  /**
   An independent account of one socket's deliveries: the messages of `trace` that reach
   `id`, computed from the evolving membership alone, without any inbox.
   */
  function DeliveredTo(connected: set<ConnId>, id: ConnId, trace: seq<ServerEvent>): seq<Message>
    decreases |trace|
  {
    if trace == [] then []
    else
      var e := trace[0];
      (if e.Receive? && Reaches(connected, e.sender, e.message, id) then [e.message] else [])
      + DeliveredTo(Members(connected, e), id, trace[1..])
  }

  /**
   One broadcast is an atomic fan-out over the current membership: exactly the other
   connected sockets receive the message, appended unchanged; every other inbox is
   untouched. An unhandled event name, or a sender that is not connected, reaches no one.
   */
  lemma BroadcastReachesExactlyTheOthers(s: RelayState, sender: ConnId, m: Message)
    requires WellFormed(s)
    ensures var r := Broadcast(s, sender, m);
      && (set id | id in s.inbox && r.inbox[id] != s.inbox[id])
         == (if sender in s.connected && IsSignalingEvent(m.event) then s.connected - {sender} else {})
      && forall id :: id in s.inbox && r.inbox[id] != s.inbox[id] ==> r.inbox[id] == s.inbox[id] + [m]
  {
    var r := Broadcast(s, sender, m);
    var changed := set id | id in s.inbox && r.inbox[id] != s.inbox[id];
    var expected := if sender in s.connected && IsSignalingEvent(m.event) then s.connected - {sender} else {};
    forall id | id in changed ensures id in expected { }
    forall id | id in expected ensures id in changed {
      assert |r.inbox[id]| == |s.inbox[id]| + 1;
    }
  }

  /** Connecting and disconnecting deliver nothing to anybody. */
  lemma MembershipChangesDeliverNothing(s: RelayState, e: ServerEvent, id: ConnId)
    requires e.Connect? || e.Disconnect?
    requires id in s.inbox
    ensures Step(s, e).inbox[id] == s.inbox[id]
  {
  }

  /** One step appends to an existing inbox exactly what `DeliveredTo` counts for that step. */
  lemma StepDelivers(s: RelayState, e: ServerEvent, id: ConnId)
    requires id in s.inbox
    ensures id in Step(s, e).inbox
    ensures Step(s, e).inbox[id]
      == s.inbox[id] + (if e.Receive? && Reaches(s.connected, e.sender, e.message, id) then [e.message] else [])
  {
  }

  /**
   Running the relay over any trace appends to each inbox exactly the messages the
   per-socket account `DeliveredTo` gives, in trace order.
   */
  lemma {:induction false} RunDeliversInOrder(s: RelayState, trace: seq<ServerEvent>, id: ConnId)
    requires id in s.inbox
    ensures id in Run(s, trace).inbox
    ensures Run(s, trace).inbox[id] == s.inbox[id] + DeliveredTo(s.connected, id, trace)
    decreases |trace|
  {
    if trace == [] {
      assert s.inbox[id] + [] == s.inbox[id];
    } else {
      StepDelivers(s, trace[0], id);
      RunDeliversInOrder(Step(s, trace[0]), trace[1..], id);
      RunUnfolds(s, trace);
      DeliveredToUnfolds(s.connected, id, trace);
      var e := trace[0];
      AppendAssoc(s.inbox[id], if e.Receive? && Reaches(s.connected, e.sender, e.message, id) then [e.message] else [],
        DeliveredTo(Step(s, e).connected, id, trace[1..]));
    }
  }

  lemma AppendAssoc(a: seq<Message>, b: seq<Message>, c: seq<Message>)
    ensures a + b + c == a + (b + c)
  {
  }

  lemma RunUnfolds(s: RelayState, trace: seq<ServerEvent>)
    requires trace != []
    ensures Run(s, trace) == Run(Step(s, trace[0]), trace[1..])
  {
  }

  lemma DeliveredToUnfolds(connected: set<ConnId>, id: ConnId, trace: seq<ServerEvent>)
    requires trace != []
    ensures var e := trace[0];
      DeliveredTo(connected, id, trace)
      == (if e.Receive? && Reaches(connected, e.sender, e.message, id) then [e.message] else [])
         + DeliveredTo(Members(connected, e), id, trace[1..])
  {
  }

  /** The trace of `sender` emitting each of `ms` in turn. */
  function Sends(sender: ConnId, ms: seq<Message>): (trace: seq<ServerEvent>)
    ensures |trace| == |ms|
    ensures forall k :: 0 <= k < |ms| ==> trace[k] == Receive(sender, ms[k])
  {
    if ms == [] then [] else [Receive(sender, ms[0])] + Sends(sender, ms[1..])
  }

  /** The messages of `ms` whose event name the server relays, in order. */
  function RelayedOnly(ms: seq<Message>): (r: seq<Message>)
    ensures |r| <= |ms|
    ensures forall m :: m in r <==> m in ms && IsSignalingEvent(m.event)
  {
    if ms == [] then []
    else (if IsSignalingEvent(ms[0].event) then [ms[0]] else []) + RelayedOnly(ms[1..])
  }

  /**
   Filtering keeps the order: the relayed messages of two batches sent one after the
   other are those of the first batch followed by those of the second.
   */
  lemma {:induction false} RelayedOnlyAppend(a: seq<Message>, b: seq<Message>)
    ensures RelayedOnly(a + b) == RelayedOnly(a) + RelayedOnly(b)
    decreases |a|
  {
    if a != [] {
      assert (a + b)[1..] == a[1..] + b;
      RelayedOnlyAppend(a[1..], b);
    } else {
      assert a + b == b;
    }
  }

  lemma {:induction false} SendsDeliveredTo(connected: set<ConnId>, sender: ConnId, ms: seq<Message>, id: ConnId)
    requires sender in connected && id in connected && id != sender
    ensures DeliveredTo(connected, id, Sends(sender, ms)) == RelayedOnly(ms)
    decreases |ms|
  {
    if ms != [] {
      assert Sends(sender, ms)[1..] == Sends(sender, ms[1..]);
      SendsDeliveredTo(connected, sender, ms[1..], id);
    }
  }

  /**
   A socket that stays connected receives another connected socket's stream of
   relayed messages complete, unaltered and in the order it was sent.
   */
  lemma SenderOrderPreserved(s: RelayState, sender: ConnId, ms: seq<Message>, id: ConnId)
    requires WellFormed(s)
    requires sender in s.connected && id in s.connected && id != sender
    ensures Run(s, Sends(sender, ms)).inbox[id] == s.inbox[id] + RelayedOnly(ms)
  {
    RunDeliversInOrder(s, Sends(sender, ms), id);
    SendsDeliveredTo(s.connected, sender, ms, id);
  }

  /** `trace` with the events `id` itself emitted taken out. */
  function WithoutSendsOf(trace: seq<ServerEvent>, id: ConnId): (r: seq<ServerEvent>)
    ensures |r| <= |trace|
    ensures forall e :: e in r <==> e in trace && !(e.Receive? && e.sender == id)
  {
    if trace == [] then []
    else (if trace[0].Receive? && trace[0].sender == id then [] else [trace[0]]) + WithoutSendsOf(trace[1..], id)
  }

  lemma {:induction false} OwnSendsIgnored(connected: set<ConnId>, id: ConnId, trace: seq<ServerEvent>)
    ensures DeliveredTo(connected, id, trace) == DeliveredTo(connected, id, WithoutSendsOf(trace, id))
    decreases |trace|
  {
    if trace != [] {
      var e := trace[0];
      OwnSendsIgnored(Members(connected, e), id, trace[1..]);
      var rest := WithoutSendsOf(trace[1..], id);
      if e.Receive? && e.sender == id {
        assert WithoutSendsOf(trace, id) == rest;
        assert DeliveredTo(connected, id, trace) == [] + DeliveredTo(connected, id, trace[1..]);
      } else {
        assert WithoutSendsOf(trace, id) == [e] + rest;
        assert ([e] + rest)[0] == e && ([e] + rest)[1..] == rest;
      }
    }
  }

  /**
   No socket is ever sent its own messages: in any run, a socket's inbox is what it would
   be had it sent nothing at all.
   */
  lemma NeverEchoedToSender(s: RelayState, trace: seq<ServerEvent>, id: ConnId)
    requires WellFormed(s) && id in s.inbox
    ensures Run(s, trace).inbox[id] == Run(s, WithoutSendsOf(trace, id)).inbox[id]
  {
    RunDeliversInOrder(s, trace, id);
    RunDeliversInOrder(s, WithoutSendsOf(trace, id), id);
    OwnSendsIgnored(s.connected, id, trace);
  }

  /** `trace` never connects `id`. */
  predicate NeverConnects(trace: seq<ServerEvent>, id: ConnId)
  {
    forall k :: 0 <= k < |trace| ==> trace[k] != Connect(id)
  }

  /** A socket that is not connected, and does not connect, receives nothing. */
  lemma {:induction false} AbsentReceivesNothing(connected: set<ConnId>, id: ConnId, trace: seq<ServerEvent>)
    requires id !in connected && NeverConnects(trace, id)
    ensures DeliveredTo(connected, id, trace) == []
    decreases |trace|
  {
    if trace != [] {
      assert trace[0] != Connect(id);
      AbsentReceivesNothing(Members(connected, trace[0]), id, trace[1..]);
    }
  }

  /**
   The socket.io server's per-connection handlers over an explicit connection set. An
   id's inbox is the sequence of events the server has emitted to that socket.
   */
  class RelayServer {
    var connected: set<ConnId>
    var inbox: map<ConnId, seq<Message>>

    function State(): RelayState
      reads this
    {
      RelayState(connected, inbox)
    }

    ghost predicate Valid()
      reads this
    {
      WellFormed(State())
    }

    constructor ()
      ensures Valid()
      ensures connected == {} && inbox == map[]
    {
      connected := {};
      inbox := map[];
    }

    /** `io.on("connection", ...)`: socket.io adds the socket; the handler only logs. */
    method OnConnection(id: ConnId)
      requires Valid()
      modifies this
      ensures Valid()
      ensures State() == Step(old(State()), Connect(id))
      ensures connected == old(connected) + {id}
      ensures forall other :: other in old(inbox) ==> other in inbox && inbox[other] == old(inbox)[other]
    {
      connected := connected + {id};
      if id !in inbox {
        inbox := inbox[id := []];
      }
    }

    /** `socket.on("disconnect", ...)`: socket.io removes the socket; the handler only logs. */
    method OnDisconnect(id: ConnId)
      requires Valid()
      modifies this
      ensures Valid()
      ensures State() == Step(old(State()), Disconnect(id))
      ensures connected == old(connected) - {id} && inbox == old(inbox)
    {
      connected := connected - {id};
    }

    /**
     An event named `event` with payload `data` arrives from socket `sender`. For the four
     signaling names the handler calls `socket.broadcast.emit(event, data)`; any other
     name has no handler.
     */
    method OnEvent(sender: ConnId, event: string, data: Payload)
      requires Valid()
      modifies this
      ensures Valid()
      ensures State() == Step(old(State()), Receive(sender, Message(event, data)))
      ensures connected == old(connected) && inbox.Keys == old(inbox).Keys
      ensures forall id :: id in old(inbox) ==>
        inbox[id] == old(inbox)[id] + (if Reaches(connected, sender, Message(event, data), id) then [Message(event, data)] else [])
    {
      if sender in connected && IsSignalingEvent(event) {
        var m := Message(event, data);
        inbox := map id | id in inbox :: if id in connected && id != sender then inbox[id] + [m] else inbox[id];
      }
    }
  }
}
