/**
  The connection lifecycle: attempts, their transports, handshakes, and stale completions.

  Callbacks run synchronously and may call back into the connection. A `Calls` value is what one callback
  does: calls in order, each with what the callbacks it triggers do in turn.
 */
module ConnectionLifecycle {
  import opened Wrappers

  type ServerId = string

  /** An attempt's transport carries the attempt's number; `pending` says that the handshake is unsettled. */
  datatype Lifecycle =
    | Disconnected
    | Connecting(id: nat, transport: bool)
    | Connected(id: nat, pending: bool)

  datatype ServerMessage = Hello(serverId: ServerId) | HelloError | Payload

  datatype Call = Disconnect | Connect

  datatype Calls = Nothing | Then(call: Call, nested: Calls, rest: Calls)

  /** What the callbacks of one message do. */
  datatype Reaction = Reaction(handshake: Calls, throws: bool, change: Calls)

  /** Connected was entered on `attempt` by a hello of `serverId` in a chunk that came from attempt `from`. */
  datatype Entered = Entered(attempt: nat, from: nat, serverId: ServerId)

  datatype Connection = Connection(
    serverId: ServerId,
    lifecycle: Lifecycle,
    sequence: nat,
    handed: set<nat>,                 // transports handed over by the factory
    closed: set<nat>,                 // transports that the client closed
    ended: set<nat>,                  // transports that reported their own end
    settles: map<nat, nat>,           // how often each handshake promise was settled
    entered: seq<Entered>,            // how connected was entered
    handled: seq<(nat, nat)>)         // for each message: the attempt it came from, the attempt it was handled on

  function Initial(serverId: ServerId): Connection {
    Connection(serverId, Disconnected, 0, {}, {}, {}, map[], [], [])
  }

  function Settles(c: Connection, id: nat): nat {
    if id in c.settles then c.settles[id] else 0
  }

  function SettleHandshake(c: Connection, id: nat): Connection {
    c.(settles := c.settles[id := Settles(c, id) + 1])
  }

  predicate IsCurrent(c: Connection, id: nat) {
    c.lifecycle != Disconnected && c.lifecycle.id == id
  }

  function HasTransport(l: Lifecycle): bool {
    l.Connected? || (l.Connecting? && l.transport)
  }

  function CloseTransport(c: Connection, id: nat): Connection {
    c.(closed := c.closed + {id})
  }

  // ---- The code ----------------------------------------------------------------------

  function React(c: Connection, calls: Calls): Connection
    decreases calls, 0
  {
    match calls
    case Nothing => c
    case Then(Disconnect, nested, rest) => React(FailAndClose(c, nested), rest)
    case Then(Connect, nested, rest) => React(ConnectNow(c, nested), rest)
  }

  /** `connect`: refused unless disconnected. The factory is called whatever the callback did. */
  function ConnectNow(c: Connection, calls: Calls): Connection
    decreases calls, 1
  {
    if c.lifecycle != Disconnected then c
    else React(c.(sequence := c.sequence + 1, lifecycle := Connecting(c.sequence + 1, false)), calls)
  }

  /** `#fail`: reject an unsettled handshake, then tell the client. */
  function Fail(c: Connection, calls: Calls): Connection
    decreases calls, 1
  {
    match c.lifecycle
    case Disconnected => c
    case Connecting(id, _) => React(SettleHandshake(c.(lifecycle := Disconnected), id), calls)
    case Connected(id, pending) =>
      var c1 := c.(lifecycle := Disconnected);
      React(if pending then SettleHandshake(c1, id) else c1, calls)
  }

  function FailAndClose(c: Connection, calls: Calls): Connection
    decreases calls, 2
  {
    var l := c.lifecycle;
    var c1 := Fail(c, calls);
    if HasTransport(l) then CloseTransport(c1, l.id) else c1
  }

  /** `#handleMessage`, for a message in a chunk that came from attempt `from`. */
  function HandleMessage(c: Connection, from: nat, message: ServerMessage, r: Reaction): Connection {
    match c.lifecycle
    case Disconnected => c
    case Connecting(id, transport) =>
      if message != Hello(c.serverId) || !transport then FailAndClose(c, r.change)
      else
        var connected := Connected(id, true);
        var c1 := React(c.(lifecycle := connected, entered := c.entered + [Entered(id, from, message.serverId)]),
            r.handshake);
        if r.throws then (if c1.lifecycle == connected then FailAndClose(c1, r.change) else c1)
        else if c1.lifecycle != connected then c1
        else
          var c2 := React(c1, r.change);
          if c2.lifecycle != connected then c2
          else SettleHandshake(c2.(lifecycle := Connected(id, false)), id)
    case Connected(id, _) =>
      if message.Payload? then React(c, r.change) else FailAndClose(c, r.change)
  }

  /** The dispatch loop of `#handleData`, which stops only when disconnected. */
  function Dispatch(c: Connection, id: nat, messages: seq<(ServerMessage, Reaction)>): Connection {
    if messages == [] then c
    else
      var c1 := Dispatch(c, id, messages[..|messages| - 1]);
      var (message, reaction) := messages[|messages| - 1];
      if c1.lifecycle == Disconnected then c1
      else HandleMessage(c1.(handled := c1.handled + [(id, c1.lifecycle.id)]), id, message, reaction)
  }

  datatype Action =
    | ClientCall(call: Call, calls: Calls)                              // connect, disconnect, fail
    | FactoryResolves(id: nat)
    | FactoryRejects(id: nat, calls: Calls)
    | HelloSendFails(id: nat, calls: Calls)
    | SendFails(id: nat, calls: Calls)                                  // a frame sent on transport id
    | Data(id: nat, messages: seq<(ServerMessage, Reaction)>)
    | Undecodable(id: nat, calls: Calls)
    | Closes(id: nat, calls: Calls)                                     // the transport's own onClose
    | Errors(id: nat, calls: Calls)                                     // the transport's own onError

  function Step(c: Connection, action: Action): Connection {
    match action
    case ClientCall(Connect, calls) => ConnectNow(c, calls)
    case ClientCall(Disconnect, calls) => FailAndClose(c, calls)
    case FactoryResolves(id) =>
      if id == 0 || id > c.sequence || id in c.handed then c
      else
        var c1 := c.(handed := c.handed + {id});
        if c.lifecycle.Connecting? && c.lifecycle.id == id then c1.(lifecycle := Connecting(id, true))
        else CloseTransport(c1, id)
    case FactoryRejects(id, calls) =>
      if id in c.handed then c else if IsCurrent(c, id) then Fail(c, calls) else c
    case HelloSendFails(id, calls) => if IsCurrent(c, id) then FailAndClose(c, calls) else c
    case SendFails(id, calls) => if IsCurrent(c, id) && HasTransport(c.lifecycle) then FailAndClose(c, calls) else c
    case Data(id, messages) =>
      if !IsCurrent(c, id) then c
      else if !HasTransport(c.lifecycle) then FailAndClose(c, Nothing)
      else Dispatch(c, id, messages)
    case Undecodable(id, calls) => if IsCurrent(c, id) then FailAndClose(c, calls) else c
    case Closes(id, calls) =>
      var c1 := c.(ended := c.ended + {id});
      if IsCurrent(c, id) then Fail(c1, calls) else c1
    case Errors(id, calls) => if IsCurrent(c, id) then FailAndClose(c, calls) else c
  }

  function Run(c: Connection, actions: seq<Action>): Connection
    decreases |actions|
  {
    if actions == [] then c else Run(Step(c, actions[0]), actions[1..])
  }

  // ---- The invariant -----------------------------------------------------------------

  /** An opened transport is current, was closed by the client, reported its end, or is about to be closed. */
  ghost predicate TransportsInv(c: Connection, owed: set<nat>) {
    && (forall t :: t in c.handed ==> 0 < t <= c.sequence)
    && (HasTransport(c.lifecycle) ==> c.lifecycle.id in c.handed)
    && (forall t :: t in c.handed ==>
          (HasTransport(c.lifecycle) && c.lifecycle.id == t) || t in c.closed || t in c.ended || t in owed)
  }

  predicate HandshakePending(l: Lifecycle, id: nat) {
    (l.Connecting? && l.id == id) || (l.Connected? && l.pending && l.id == id)
  }

  /** A handshake promise was settled exactly once, unless it belongs to the attempt at hand and is pending. */
  ghost predicate HandshakesInv(c: Connection) {
    && (c.lifecycle != Disconnected ==> c.lifecycle.id == c.sequence > 0)
    && (forall id :: 1 <= id <= c.sequence ==> Settles(c, id) == if HandshakePending(c.lifecycle, id) then 0 else 1)
    && (forall id :: id == 0 || id > c.sequence ==> Settles(c, id) == 0)
  }

  ghost predicate EnteredInv(c: Connection) {
    forall i :: 0 <= i < |c.entered| ==>
        c.entered[i].serverId == c.serverId && c.entered[i].from == c.entered[i].attempt
  }

  ghost predicate Inv(c: Connection, owed: set<nat>) {
    TransportsInv(c, owed) && HandshakesInv(c) && EnteredInv(c)
  }

  lemma {:induction false} ReactKeepsInv(c: Connection, calls: Calls, owed: set<nat>)
    requires Inv(c, owed)
    ensures Inv(React(c, calls), owed)
    decreases calls, 0
  {
    hide Inv;
    match calls
    case Nothing =>
    case Then(Disconnect, nested, rest) =>
      FailAndCloseKeepsInv(c, nested, owed);
      ReactKeepsInv(FailAndClose(c, nested), rest, owed);
    case Then(Connect, nested, rest) =>
      ConnectKeepsInv(c, nested, owed);
      ReactKeepsInv(ConnectNow(c, nested), rest, owed);
  }

  lemma {:induction false} ConnectKeepsInv(c: Connection, calls: Calls, owed: set<nat>)
    requires Inv(c, owed)
    ensures Inv(ConnectNow(c, calls), owed)
    decreases calls, 1
  {
    hide React;
    if c.lifecycle == Disconnected {
      var c1 := c.(sequence := c.sequence + 1, lifecycle := Connecting(c.sequence + 1, false));
      assert TransportsInv(c1, owed);
      forall id | 1 <= id <= c1.sequence
          ensures Settles(c1, id) == if HandshakePending(c1.lifecycle, id) then 0 else 1 {
        assert Settles(c1, id) == Settles(c, id);
      }
      forall id | id == 0 || id > c1.sequence ensures Settles(c1, id) == 0 {
        assert Settles(c1, id) == Settles(c, id);
      }
      ReactKeepsInv(c1, calls, owed);
    }
  }

  /** The state in which `#fail` calls back. */
  function Dropped(c: Connection): Connection {
    match c.lifecycle
    case Disconnected => c
    case Connecting(id, _) => SettleHandshake(c.(lifecycle := Disconnected), id)
    case Connected(id, pending) => if pending then SettleHandshake(c.(lifecycle := Disconnected), id)
        else c.(lifecycle := Disconnected)
  }

  lemma DroppedInv(c: Connection, owed: set<nat>)
    requires Inv(c, owed)
    ensures Inv(Dropped(c), if HasTransport(c.lifecycle) then owed + {c.lifecycle.id} else owed)
    ensures HasTransport(c.lifecycle) && c.lifecycle.id in c.ended ==> Inv(Dropped(c), owed)
  {
    var d := Dropped(c);
    forall id | 1 <= id <= d.sequence ensures Settles(d, id) == if HandshakePending(d.lifecycle, id) then 0 else 1 {
      assert Settles(c, id) == if HandshakePending(c.lifecycle, id) then 0 else 1;
    }
    forall id | id == 0 || id > d.sequence ensures Settles(d, id) == 0 {
      assert Settles(c, id) == 0;
    }
  }

  lemma {:induction false} FailKeepsInv(c: Connection, calls: Calls, owed: set<nat>)
    requires Inv(c, owed)
    ensures Inv(Fail(c, calls), if HasTransport(c.lifecycle) then owed + {c.lifecycle.id} else owed)
    ensures HasTransport(c.lifecycle) && c.lifecycle.id in c.ended ==> Inv(Fail(c, calls), owed)
    decreases calls, 1
  {
    hide React, Inv, SettleHandshake;
    if c.lifecycle != Disconnected {
      DroppedInv(c, owed);
      assert Fail(c, calls) == React(Dropped(c), calls);
      ReactKeepsInv(Dropped(c), calls, if HasTransport(c.lifecycle) then owed + {c.lifecycle.id} else owed);
      if HasTransport(c.lifecycle) && c.lifecycle.id in c.ended {
        ReactKeepsInv(Dropped(c), calls, owed);
      }
    }
  }

  lemma {:induction false} FailAndCloseKeepsInv(c: Connection, calls: Calls, owed: set<nat>)
    requires Inv(c, owed)
    ensures Inv(FailAndClose(c, calls), owed)
    decreases calls, 2
  {
    hide Fail, Settles;
    FailKeepsInv(c, calls, owed);
    if HasTransport(c.lifecycle) {
      PayDebt(Fail(c, calls), c.lifecycle.id, owed);
    }
  }

  lemma PayDebt(c: Connection, id: nat, owed: set<nat>)
    requires Inv(c, owed + {id})
    ensures Inv(CloseTransport(c, id), owed)
  {
    forall i | 1 <= i <= c.sequence ensures Settles(CloseTransport(c, id), i) == Settles(c, i) {
    }
    forall i: nat ensures Settles(CloseTransport(c, id), i) == Settles(c, i) {
    }
  }

  lemma EnterConnectedInv(c: Connection)
    requires Inv(c, {}) && c.lifecycle.Connecting? && c.lifecycle.transport
    ensures var id := c.lifecycle.id;
            Inv(c.(lifecycle := Connected(id, true), entered := c.entered + [Entered(id, id, c.serverId)]), {})
  {
    var id := c.lifecycle.id;
    var d := c.(lifecycle := Connected(id, true), entered := c.entered + [Entered(id, id, c.serverId)]);
    forall id: nat ensures Settles(d, id) == Settles(c, id) {
    }
  }

  lemma ResolveHandshakeInv(c: Connection)
    requires Inv(c, {}) && c.lifecycle.Connected? && c.lifecycle.pending
    ensures Inv(SettleHandshake(c.(lifecycle := Connected(c.lifecycle.id, false)), c.lifecycle.id), {})
  {
    var d := SettleHandshake(c.(lifecycle := Connected(c.lifecycle.id, false)), c.lifecycle.id);
    forall id | 1 <= id <= d.sequence ensures Settles(d, id) == if HandshakePending(d.lifecycle, id) then 0 else 1 {
      assert Settles(c, id) == if HandshakePending(c.lifecycle, id) then 0 else 1;
    }
    forall id | id == 0 || id > d.sequence ensures Settles(d, id) == 0 {
      assert Settles(c, id) == 0;
    }
  }

  /** The only attempt that may have a transport is the given one. */
  predicate OnlyTransport(c: Connection, id: nat) {
    HasTransport(c.lifecycle) ==> c.lifecycle.id == id
  }

  /** Within one synchronous call no other attempt gets a transport, and the expected server stays the same. */
  ghost predicate Tame(c: Connection, d: Connection, id: nat) {
    d.serverId == c.serverId && (OnlyTransport(c, id) ==> OnlyTransport(d, id))
  }

  lemma {:induction false} ReactIsTame(c: Connection, calls: Calls, id: nat)
    ensures Tame(c, React(c, calls), id)
    decreases calls, 0
  {
    hide ConnectNow, FailAndClose;
    match calls
    case Nothing =>
    case Then(Disconnect, nested, rest) =>
      FailIsTame(c, nested, id);
      ReactIsTame(FailAndClose(c, nested), rest, id);
    case Then(Connect, nested, rest) =>
      ConnectIsTame(c, nested, id);
      ReactIsTame(ConnectNow(c, nested), rest, id);
  }

  lemma {:induction false} ConnectIsTame(c: Connection, calls: Calls, id: nat)
    ensures Tame(c, ConnectNow(c, calls), id)
    decreases calls, 1
  {
    hide React;
    var c1 := c.(sequence := c.sequence + 1, lifecycle := Connecting(c.sequence + 1, false));
    ReactIsTame(c1, calls, id);
  }

  lemma {:induction false} FailIsTame(c: Connection, calls: Calls, id: nat)
    ensures Tame(c, Fail(c, calls), id) && Tame(c, FailAndClose(c, calls), id)
    decreases calls, 1
  {
    hide React, Settles;
    ReactIsTame(Dropped(c), calls, id);
    assert c.lifecycle != Disconnected ==> Fail(c, calls) == React(Dropped(c), calls);
  }

  lemma HandleIsTame(c: Connection, from: nat, message: ServerMessage, r: Reaction)
    ensures Tame(c, HandleMessage(c, from, message, r), from)
  {
    hide React, FailAndClose, Settles;
    ReactIsTame(c, r.change, from);
    FailIsTame(c, r.change, from);
    if c.lifecycle.Connecting? && message == Hello(c.serverId) {
      var id := c.lifecycle.id;
      var c0 := c.(lifecycle := Connected(id, true), entered := c.entered + [Entered(id, from, message.serverId)]);
      var c1 := React(c0, r.handshake);
      ReactIsTame(c0, r.handshake, from);
      ReactIsTame(c1, r.change, from);
      FailIsTame(c1, r.change, from);
    }
  }

  lemma {:induction false} DispatchKeepsServer(c: Connection, id: nat, messages: seq<(ServerMessage, Reaction)>)
    ensures Dispatch(c, id, messages).serverId == c.serverId
  {
    hide HandleMessage;
    if messages != [] {
      var n := |messages| - 1;
      DispatchKeepsServer(c, id, messages[..n]);
      var c1 := Dispatch(c, id, messages[..n]);
      if c1.lifecycle != Disconnected {
        HandleIsTame(c1.(handled := c1.handled + [(id, c1.lifecycle.id)]), id, messages[n].0, messages[n].1);
      }
    }
  }

  lemma StepKeepsServer(c: Connection, action: Action)
    ensures Step(c, action).serverId == c.serverId
  {
    hide React, Fail, FailAndClose, ConnectNow, Dispatch;
    match action
    case ClientCall(_, calls) => ConnectIsTame(c, calls, 0); FailIsTame(c, calls, 0);
    case FactoryResolves(_) =>
    case FactoryRejects(_, calls) => FailIsTame(c, calls, 0);
    case HelloSendFails(_, calls) => FailIsTame(c, calls, 0);
    case SendFails(_, calls) => FailIsTame(c, calls, 0);
    case Data(id, messages) => FailIsTame(c, Nothing, 0); DispatchKeepsServer(c, id, messages);
    case Undecodable(_, calls) => FailIsTame(c, calls, 0);
    case Closes(id, calls) => FailIsTame(c.(ended := c.ended + {id}), calls, 0);
    case Errors(_, calls) => FailIsTame(c, calls, 0);
  }

  lemma {:induction false} RunKeepsServer(c: Connection, actions: seq<Action>)
    ensures Run(c, actions).serverId == c.serverId
    decreases |actions|
  {
    hide Step;
    if actions != [] {
      StepKeepsServer(c, actions[0]);
      RunKeepsServer(Step(c, actions[0]), actions[1..]);
    }
  }

  lemma HandleMessageKeepsInv(c: Connection, from: nat, message: ServerMessage, r: Reaction)
    requires Inv(c, {}) && OnlyTransport(c, from)
    ensures Inv(HandleMessage(c, from, message, r), {})
  {
    hide React, FailAndClose, Inv, SettleHandshake;
    FailAndCloseKeepsInv(c, r.change, {});
    ReactKeepsInv(c, r.change, {});
    if c.lifecycle.Connecting? && c.lifecycle.transport && message == Hello(c.serverId) {
      EnterConnectedInv(c);
      var connected := Connected(c.lifecycle.id, true);
      var id := c.lifecycle.id;
      var c0 := c.(lifecycle := connected, entered := c.entered + [Entered(id, id, c.serverId)]);
      var c1 := React(c0, r.handshake);
      ReactKeepsInv(c0, r.handshake, {});
      FailAndCloseKeepsInv(c1, r.change, {});
      ReactKeepsInv(c1, r.change, {});
      var c2 := React(c1, r.change);
      if c2.lifecycle == connected {
        ResolveHandshakeInv(c2);
      }
    }
  }

  lemma SameButHandled(c: Connection, handled: seq<(nat, nat)>)
    requires Inv(c, {})
    ensures Inv(c.(handled := handled), {})
  {
    var d := c.(handled := handled);
    forall id: nat ensures Settles(d, id) == Settles(c, id) {
    }
  }

  lemma {:induction false} DispatchKeepsInv(c: Connection, id: nat, messages: seq<(ServerMessage, Reaction)>)
    requires Inv(c, {}) && OnlyTransport(c, id)
    ensures Inv(Dispatch(c, id, messages), {}) && Tame(c, Dispatch(c, id, messages), id)
  {
    hide HandleMessage, Inv;
    if messages != [] {
      var n := |messages| - 1;
      DispatchKeepsInv(c, id, messages[..n]);
      var c1 := Dispatch(c, id, messages[..n]);
      if c1.lifecycle != Disconnected {
        var handled := c1.handled + [(id, c1.lifecycle.id)];
        SameButHandled(c1, handled);
        HandleMessageKeepsInv(c1.(handled := handled), id, messages[n].0, messages[n].1);
        HandleIsTame(c1.(handled := handled), id, messages[n].0, messages[n].1);
      }
    }
  }

  lemma FactoryResolvesKeepsInv(c: Connection, id: nat)
    requires Inv(c, {})
    ensures Inv(Step(c, FactoryResolves(id)), {})
  {
    var d := Step(c, FactoryResolves(id));
    forall i: nat ensures Settles(d, i) == Settles(c, i) {
    }
  }

  lemma EndedInv(c: Connection, id: nat)
    requires Inv(c, {})
    ensures Inv(c.(ended := c.ended + {id}), {})
  {
    var d := c.(ended := c.ended + {id});
    forall i: nat ensures Settles(d, i) == Settles(c, i) {
    }
  }

  lemma StepKeepsInv(c: Connection, action: Action)
    requires Inv(c, {})
    ensures Inv(Step(c, action), {})
  {
    hide React, Fail, FailAndClose, ConnectNow, Dispatch;
    match action
    case ClientCall(Connect, calls) => ConnectKeepsInv(c, calls, {});
    case ClientCall(Disconnect, calls) => FailAndCloseKeepsInv(c, calls, {});
    case FactoryResolves(id) => FactoryResolvesKeepsInv(c, id);
    case FactoryRejects(id, calls) => FailKeepsInv(c, calls, {});
    case HelloSendFails(id, calls) => FailAndCloseKeepsInv(c, calls, {});
    case SendFails(id, calls) => FailAndCloseKeepsInv(c, calls, {});
    case Data(id, messages) =>
      FailAndCloseKeepsInv(c, Nothing, {});
      if IsCurrent(c, id) { DispatchKeepsInv(c, id, messages); }
    case Undecodable(id, calls) => FailAndCloseKeepsInv(c, calls, {});
    case Closes(id, calls) =>
      EndedInv(c, id);
      FailKeepsInv(c.(ended := c.ended + {id}), calls, {});
    case Errors(id, calls) => FailAndCloseKeepsInv(c, calls, {});
  }

  lemma {:induction false} RunKeepsInv(c: Connection, actions: seq<Action>)
    requires Inv(c, {})
    ensures Inv(Run(c, actions), {})
    decreases |actions|
  {
    hide Inv, Step;
    if actions != [] {
      StepKeepsInv(c, actions[0]);
      RunKeepsInv(Step(c, actions[0]), actions[1..]);
    }
  }

  /**
    In every run, with callbacks that call back at will: an opened transport that is not current was closed
    by the client or reported its own end; each handshake promise is settled at most once, and exactly once
    when its attempt is over; and connected was entered only by a hello with the expected server id that came
    from the attempt itself, even if a callback reconnects in the middle of a chunk.
   */
  lemma EveryRun(serverId: ServerId, actions: seq<Action>)
    ensures var c := Run(Initial(serverId), actions);
            && (forall t :: t in c.handed ==>
                (HasTransport(c.lifecycle) && c.lifecycle.id == t) || t in c.closed || t in c.ended)
            && (forall id :: Settles(c, id) <= 1)
            && (forall id :: 1 <= id <= c.sequence && !IsCurrent(c, id) ==> Settles(c, id) == 1)
            && (forall i :: 0 <= i < |c.entered| ==>
                  c.entered[i].serverId == serverId && c.entered[i].from == c.entered[i].attempt)
  {
    hide Run;
    RunKeepsInv(Initial(serverId), actions);
    RunKeepsServer(Initial(serverId), actions);
  }

  // ---- Stale attempts ----------------------------------------------------------------

  /** The attempt that an action comes from; client calls come from none. */
  function Source(action: Action): Option<nat> {
    if action.ClientCall? then None else Some(action.id)
  }

  /** Whatever a transport or its opening does once its attempt is no longer current, the lifecycle stays. */
  lemma StaleIsIgnored(c: Connection, action: Action)
    requires Source(action).Some? && !IsCurrent(c, Source(action).value)
    ensures var r := Step(c, action);
            && r.lifecycle == c.lifecycle && r.sequence == c.sequence && r.settles == c.settles
                && r.entered == c.entered
            && r.handled == c.handled
            && (action.FactoryResolves? && r != c ==> action.id in r.closed)
  {
    hide React, Fail, FailAndClose, ConnectNow, Dispatch;
  }

  /** A callback that never calls `connect`. */
  predicate NoConnect(calls: Calls) {
    calls.Nothing? || (calls.call == Disconnect && NoConnect(calls.nested) && NoConnect(calls.rest))
  }

  predicate NeverReconnects(r: Reaction) {
    NoConnect(r.handshake) && NoConnect(r.change)
  }

  ghost predicate AllHandledAtHome(handled: seq<(nat, nat)>) {
    forall i :: 0 <= i < |handled| ==> handled[i].0 == handled[i].1
  }

  /** No callback of a message calls `connect`; other callbacks may. */
  predicate NoMidChunkReconnect(action: Action) {
    action.Data? ==> forall i :: 0 <= i < |action.messages| ==> NeverReconnects(action.messages[i].1)
  }

  /** The states in which `connect` and `#fail` call back differ from the given one, but not in its log. */
  lemma {:induction false} ReactOnOthers(c: Connection, calls: Calls)
    ensures ConnectNow(c, calls).handled == c.handled && FailAndClose(c, calls).handled == c.handled
        && Fail(c, calls).handled == c.handled
    decreases calls, 1
  {
    var c1 := c.(sequence := c.sequence + 1, lifecycle := Connecting(c.sequence + 1, false));
    HandledAfterReact(c1, calls);
    HandledAfterReact(Dropped(c), calls);
  }

  lemma {:induction false} HandledAfterReact(c: Connection, calls: Calls)
    ensures React(c, calls).handled == c.handled
    decreases calls, 0
  {
    if calls.Then? {
      ReactOnOthers(c, calls.nested);
      HandledAfterReact(if calls.call == Disconnect then FailAndClose(c, calls.nested)
          else ConnectNow(c, calls.nested), calls.rest);
    }
  }

  // ---- Exactly which chunks leak -----------------------------------------------------

  /** Where the connection stands from the point of view of one attempt. */
  datatype Place = Opening | Up | Down | Away

  predicate AtHome(p: Place) {
    p == Opening || p == Up
  }

  /** Where a callback leaves the connection. A call is refused, and triggers nothing, where it has no effect. */
  function After(p: Place, calls: Calls): Place
    decreases calls
  {
    match calls
    case Nothing => p
    case Then(Disconnect, nested, rest) => After(if p == Down then Down else After(Down, nested), rest)
    case Then(Connect, nested, rest) => After(if p == Down then After(Away, nested) else p, rest)
  }

  /** Where one message leaves the connection, as far as its own attempt goes; what is not at home stays so. */
  function AfterMessage(serverId: ServerId, p: Place, message: ServerMessage, r: Reaction): Place {
    match p
    case Opening =>
      if message != Hello(serverId) then After(Down, r.change)
      else
        var q := After(Up, r.handshake);
        if q != Up then q else After(if r.throws then Down else Up, r.change)
    case Up => After(if message.Payload? then Up else Down, r.change)
    case Down => Down
    case Away => Away
  }

  function AfterMessages(serverId: ServerId, p: Place, messages: seq<(ServerMessage, Reaction)>): Place {
    if messages == [] then p
    else
      var n := |messages| - 1;
      AfterMessage(serverId, AfterMessages(serverId, p, messages[..n]), messages[n].0, messages[n].1)
  }

  function PlaceOf(c: Connection, id: nat): Place {
    if c.lifecycle == Disconnected then Down
    else if c.lifecycle.id != id then Away
    else if c.lifecycle.Connecting? then Opening else Up
  }

  /** What a callback did, as seen from attempt `id`. */
  ghost predicate Moves(c: Connection, d: Connection, id: nat, place: Place) {
    && PlaceOf(d, id) == place
    && d.sequence >= c.sequence && d.serverId == c.serverId
    && (AtHome(place) ==> d.lifecycle == c.lifecycle)
  }

  lemma {:induction false} ReactMoves(c: Connection, calls: Calls, id: nat)
    requires id <= c.sequence
    ensures Moves(c, React(c, calls), id, After(PlaceOf(c, id), calls))
    decreases calls, 0
  {
    hide ConnectNow, FailAndClose, Settles;
    match calls
    case Nothing =>
    case Then(Disconnect, nested, rest) =>
      FailAndCloseMoves(c, nested, id);
      ReactMoves(FailAndClose(c, nested), rest, id);
    case Then(Connect, nested, rest) =>
      ConnectMoves(c, nested, id);
      ReactMoves(ConnectNow(c, nested), rest, id);
  }

  lemma {:induction false} ConnectMoves(c: Connection, calls: Calls, id: nat)
    requires id <= c.sequence
    ensures var p := PlaceOf(c, id);
            Moves(c, ConnectNow(c, calls), id, if p == Down then After(Away, calls) else p)
    decreases calls, 1
  {
    hide React, After;
    if c.lifecycle == Disconnected {
      var c1 := c.(sequence := c.sequence + 1, lifecycle := Connecting(c.sequence + 1, false));
      ReactMoves(c1, calls, id);
      NeverBackHome(Away, calls);
    }
  }

  lemma {:induction false} FailAndCloseMoves(c: Connection, calls: Calls, id: nat)
    requires id <= c.sequence
    ensures var p := PlaceOf(c, id);
            Moves(c, FailAndClose(c, calls), id, if p == Down then Down else After(Down, calls))
    decreases calls, 1
  {
    hide React, After, Settles;
    if c.lifecycle != Disconnected {
      ReactMoves(Dropped(c), calls, id);
      assert Fail(c, calls) == React(Dropped(c), calls);
      NeverBackHome(Down, calls);
    }
  }

  lemma {:induction false} NeverBackHome(p: Place, calls: Calls)
    requires !AtHome(p)
    ensures !AtHome(After(p, calls))
    decreases calls
  {
    if calls.Then? {
      NeverBackHome(Down, calls.nested);
      NeverBackHome(Away, calls.nested);
      NeverBackHome(if calls.call == Disconnect
                    then (if p == Down then Down else After(Down, calls.nested))
                    else (if p == Down then After(Away, calls.nested) else p), calls.rest);
    }
  }

  lemma HandleMoves(c: Connection, from: nat, message: ServerMessage, r: Reaction)
    requires c.lifecycle != Disconnected && c.lifecycle.id <= c.sequence && HasTransport(c.lifecycle)
    ensures var d := HandleMessage(c, from, message, r);
            var id := c.lifecycle.id;
            && PlaceOf(d, id) == AfterMessage(c.serverId, PlaceOf(c, id), message, r)
            && d.sequence >= c.sequence && d.serverId == c.serverId && d.handled == c.handled
            && (AtHome(PlaceOf(d, id)) ==> HasTransport(d.lifecycle))
  {
    hide React, FailAndClose, After, Settles;
    var id := c.lifecycle.id;
    ReactMoves(c, r.change, id);
    FailAndCloseMoves(c, r.change, id);
    NeverBackHome(Down, r.change);
    HandledAfterReact(c, r.change);
    ReactOnOthers(c, r.change);
    if c.lifecycle.Connecting? && message == Hello(c.serverId) {
      var c0 := c.(lifecycle := Connected(id, true), entered := c.entered + [Entered(id, from, message.serverId)]);
      HelloMoves(c0, r, id);
    }
  }

  lemma HelloMoves(c0: Connection, r: Reaction, id: nat)
    requires c0.lifecycle == Connected(id, true) && id <= c0.sequence
    ensures var c1 := React(c0, r.handshake);
            && Moves(c0, c1, id, After(Up, r.handshake)) && c1.handled == c0.handled
            && Moves(c1, React(c1, r.change), id, After(PlaceOf(c1, id), r.change))
            && React(c1, r.change).handled == c0.handled
            && (PlaceOf(c1, id) == Up ==> Moves(c1, FailAndClose(c1, r.change), id, After(Down, r.change)))
            && FailAndClose(c1, r.change).handled == c0.handled
  {
    hide React, FailAndClose, After, Settles;
    ReactMoves(c0, r.handshake, id);
    HandledAfterReact(c0, r.handshake);
    var c1 := React(c0, r.handshake);
    ReactMoves(c1, r.change, id);
    HandledAfterReact(c1, r.change);
    FailAndCloseMoves(c1, r.change, id);
    ReactOnOthers(c1, r.change);
  }

  lemma HandledAfterHandle(c: Connection, from: nat, message: ServerMessage, r: Reaction)
    ensures HandleMessage(c, from, message, r).handled == c.handled
  {
    hide React, FailAndClose, Settles;
    HandledAfterReact(c, r.change);
    ReactOnOthers(c, r.change);
    if c.lifecycle.Connecting? && message == Hello(c.serverId) {
      var id := c.lifecycle.id;
      var c0 := c.(lifecycle := Connected(id, true), entered := c.entered + [Entered(id, from, message.serverId)]);
      var c1 := React(c0, r.handshake);
      HandledAfterReact(c0, r.handshake);
      HandledAfterReact(c1, r.change);
      ReactOnOthers(c1, r.change);
    }
  }

  /** A callback of a message before the last leaves the connection reopened. */
  predicate ReopensEarly(c: Connection, id: nat, messages: seq<(ServerMessage, Reaction)>) {
    messages != [] && AfterMessages(c.serverId, PlaceOf(c, id), messages[..|messages| - 1]) == Away
  }

  /**
    The messages of a chunk are all handled on the attempt they came from if and only if no callback
    before the last message leaves the connection reopened.
   */
  lemma {:induction false} HandledAtHomeIff(c: Connection, id: nat, messages: seq<(ServerMessage, Reaction)>)
    requires IsCurrent(c, id) && id <= c.sequence && HasTransport(c.lifecycle) && AllHandledAtHome(c.handled)
    ensures var d := Dispatch(c, id, messages);
            var p := AfterMessages(c.serverId, PlaceOf(c, id), messages);
            && (AllHandledAtHome(d.handled) <==> !ReopensEarly(c, id, messages))
            && (ReopensEarly(c, id, messages) ==> p == Away)
            && (!ReopensEarly(c, id, messages) ==>
                  && d.serverId == c.serverId && d.sequence >= id
                  && PlaceOf(d, id) == p && (AtHome(p) ==> HasTransport(d.lifecycle)))
    decreases |messages|
  {
    hide HandleMessage, After;
    if messages != [] {
      var n := |messages| - 1;
      var before := messages[..n];
      HandledAtHomeIff(c, id, before);
      var c1 := Dispatch(c, id, before);
      if c1.lifecycle != Disconnected {
        var c2 := c1.(handled := c1.handled + [(id, c1.lifecycle.id)]);
        var d := HandleMessage(c2, id, messages[n].0, messages[n].1);
        HandledAfterHandle(c2, id, messages[n].0, messages[n].1);
        assert c2.handled[|c1.handled|] == (id, c1.lifecycle.id);
        assert forall i :: 0 <= i < |c1.handled| ==> c2.handled[i] == c1.handled[i];
        if PlaceOf(c1, id) != Away && !ReopensEarly(c, id, before) {
          HandleMoves(c2, id, messages[n].0, messages[n].1);
        }
      }
    }
  }

  /** An action that dispatches a chunk in which a callback before the last message reopens the connection. */
  predicate Leaks(c: Connection, action: Action) {
    action.Data? && IsCurrent(c, action.id) && HasTransport(c.lifecycle) && ReopensEarly(c, action.id, action.messages)
  }

  predicate NeverLeaks(c: Connection, actions: seq<Action>)
    decreases |actions|
  {
    actions == [] || (!Leaks(c, actions[0]) && NeverLeaks(Step(c, actions[0]), actions[1..]))
  }

  lemma {:induction false} DispatchExtends(c: Connection, id: nat, messages: seq<(ServerMessage, Reaction)>)
    ensures c.handled <= Dispatch(c, id, messages).handled
    decreases |messages|
  {
    hide HandleMessage;
    if messages != [] {
      var n := |messages| - 1;
      DispatchExtends(c, id, messages[..n]);
      var c1 := Dispatch(c, id, messages[..n]);
      if c1.lifecycle != Disconnected {
        HandledAfterHandle(c1.(handled := c1.handled + [(id, c1.lifecycle.id)]), id, messages[n].0, messages[n].1);
      }
    }
  }

  /** Only the dispatch of a chunk handles messages, and the log of handled messages only grows. */
  lemma StepExtends(c: Connection, action: Action)
    ensures c.handled <= Step(c, action).handled
    ensures !(action.Data? && IsCurrent(c, action.id) && HasTransport(c.lifecycle)) ==>
        Step(c, action).handled == c.handled
  {
    hide Dispatch, React, Fail, FailAndClose, ConnectNow, Settles;
    match action {
      case Data(id, messages) =>
        ReactOnOthers(c, Nothing);
        DispatchExtends(c, id, messages);
      case ClientCall(_, calls) => ReactOnOthers(c, calls);
      case FactoryResolves(_) =>
      case FactoryRejects(_, calls) => ReactOnOthers(c, calls);
      case HelloSendFails(_, calls) => ReactOnOthers(c, calls);
      case SendFails(_, calls) => ReactOnOthers(c, calls);
      case Undecodable(_, calls) => ReactOnOthers(c, calls);
      case Closes(id, calls) => ReactOnOthers(c.(ended := c.ended + {id}), calls);
      case Errors(_, calls) => ReactOnOthers(c, calls);
    }
  }

  lemma {:induction false} RunExtends(c: Connection, actions: seq<Action>)
    ensures c.handled <= Run(c, actions).handled
    decreases |actions|
  {
    hide Step;
    if actions != [] {
      StepExtends(c, actions[0]);
      RunExtends(Step(c, actions[0]), actions[1..]);
    }
  }

  lemma {:induction false} RunAtHomeIff(c: Connection, actions: seq<Action>)
    requires Inv(c, {}) && AllHandledAtHome(c.handled)
    ensures AllHandledAtHome(Run(c, actions).handled) <==> NeverLeaks(c, actions)
    decreases |actions|
  {
    hide Dispatch, React, Fail, FailAndClose, ConnectNow, Settles, AfterMessages;
    if actions != [] {
      var action := actions[0];
      StepExtends(c, action);
      StepKeepsInv(c, action);
      if action.Data? && IsCurrent(c, action.id) && HasTransport(c.lifecycle) {
        HandledAtHomeIff(c, action.id, action.messages);
        assert Step(c, action) == Dispatch(c, action.id, action.messages);
      }
      var d := Step(c, action);
      RunExtends(d, actions[1..]);
      if AllHandledAtHome(d.handled) {
        RunAtHomeIff(d, actions[1..]);
      } else {
        var i :| 0 <= i < |d.handled| && d.handled[i].0 != d.handled[i].1;
        assert Run(d, actions[1..]).handled[i] == d.handled[i];
      }
    }
  }

  /** In a whole run, no message is handled on another attempt than its own if and only if no chunk leaks. */
  lemma MessagesStayHomeIff(serverId: ServerId, actions: seq<Action>)
    ensures AllHandledAtHome(Run(Initial(serverId), actions).handled) <==> NeverLeaks(Initial(serverId), actions)
  {
    hide NeverLeaks, Run;
    RunAtHomeIff(Initial(serverId), actions);
  }

  lemma {:induction false} AfterWithoutConnect(p: Place, calls: Calls)
    requires p != Away && NoConnect(calls)
    ensures After(p, calls) != Away
    decreases calls
  {
    if calls.Then? {
      AfterWithoutConnect(Down, calls.nested);
      AfterWithoutConnect(if p == Down then Down else After(Down, calls.nested), calls.rest);
    }
  }

  lemma {:induction false} MessagesWithoutConnect(serverId: ServerId, p: Place,
      messages: seq<(ServerMessage, Reaction)>)
    requires p != Away && forall i :: 0 <= i < |messages| ==> NeverReconnects(messages[i].1)
    ensures AfterMessages(serverId, p, messages) != Away
    decreases |messages|
  {
    hide After;
    if messages != [] {
      var n := |messages| - 1;
      MessagesWithoutConnect(serverId, p, messages[..n]);
      assert NeverReconnects(messages[n].1);
      AfterWithoutConnect(Up, messages[n].1.handshake);
      AfterWithoutConnect(Down, messages[n].1.change);
      AfterWithoutConnect(Up, messages[n].1.change);
    }
  }

  /** So it is enough that no callback of a message calls `connect`, whatever other callbacks do. */
  lemma {:induction false} NoReconnectNoLeak(c: Connection, actions: seq<Action>)
    requires forall i :: 0 <= i < |actions| ==> NoMidChunkReconnect(actions[i])
    ensures NeverLeaks(c, actions)
    decreases |actions|
  {
    hide Step, AfterMessages;
    if actions != [] {
      assert NoMidChunkReconnect(actions[0]);
      if Leaks(c, actions[0]) {
        var messages := actions[0].messages;
        MessagesWithoutConnect(c.serverId, PlaceOf(c, actions[0].id), messages[..|messages| - 1]);
      }
      assert forall i :: 0 <= i < |actions[1..]| ==> actions[1..][i] == actions[i + 1];
      NoReconnectNoLeak(Step(c, actions[0]), actions[1..]);
    }
  }

  const RECONNECT := Then(Disconnect, Nothing, Then(Connect, Nothing, Nothing))

  /**
    Without that restriction the dispatch loop is wrong: on any connected state, a callback that
    disconnects and reconnects in the middle of a chunk lets the next message of the old attempt reach the
    new one, and even the right hello makes the new attempt fail.
   */
  lemma MidChunkReconnectLeaks(c: Connection)
    requires Inv(c, {}) && c.lifecycle.Connected? && !c.lifecycle.pending
    ensures var quiet := Reaction(Nothing, false, Nothing);
            var messages := [(Payload, Reaction(Nothing, false, RECONNECT)), (Hello(c.serverId), quiet)];
            var d := Step(c, Data(c.lifecycle.id, messages));
            && d.sequence == c.sequence + 1 && d.lifecycle == Disconnected && Settles(d, d.sequence) == 1
            && d.handled == c.handled + [(c.lifecycle.id, c.lifecycle.id), (c.lifecycle.id, d.sequence)]
            && !AllHandledAtHome(d.handled)
  {
    var id := c.lifecycle.id;
    var quiet := Reaction(Nothing, false, Nothing);
    var first := (Payload, Reaction(Nothing, false, RECONNECT));
    var messages := [first, (Hello(c.serverId), quiet)];
    var none: seq<(ServerMessage, Reaction)> := [];
    assert messages[..1] == [first] && [first][..0] == none;
    var c0 := c.(handled := c.handled + [(id, id)]);
    assert Dispatch(c, id, none) == c;
    assert Dispatch(c, id, [first]) == HandleMessage(c0, id, Payload, first.1);
    var down := c0.(lifecycle := Disconnected, closed := c.closed + {id});
    assert FailAndClose(c0, Nothing) == down;
    var up := down.(sequence := c.sequence + 1, lifecycle := Connecting(c.sequence + 1, false));
    assert ConnectNow(down, Nothing) == up;
    assert React(c0, RECONNECT) == up by {
      assert React(c0, RECONNECT) == React(down, Then(Connect, Nothing, Nothing));
      assert React(down, Then(Connect, Nothing, Nothing)) == React(up, Nothing);
    }
    assert Dispatch(c, id, [first]) == up;
    var last := up.(handled := up.handled + [(id, up.sequence)]);
    assert Dispatch(c, id, messages) == HandleMessage(last, id, Hello(c.serverId), quiet)
        == FailAndClose(last, Nothing);
    var d := FailAndClose(last, Nothing);
    assert Settles(c, c.sequence + 1) == 0;
    assert Settles(last, c.sequence + 1) == 0;
    assert d == Dropped(last);
    assert d.handled[|c.handled| + 1] == (id, d.sequence);
    assert d.handled == c.handled + [(id, id), (id, d.sequence)];
    assert Step(c, Data(id, messages)) == d;
  }

  // ---- The connection object ---------------------------------------------------------

  class ClientConnection {
    const serverId: ServerId
    var lifecycle: Lifecycle
    var sequence: nat
    var settles: map<nat, nat>
    var handed: set<nat>
    var closed: set<nat>
    var ended: set<nat>
    ghost var entered: seq<Entered>
    ghost var handled: seq<(nat, nat)>

    constructor (serverId: ServerId)
      ensures Model() == Initial(serverId)
    {
      this.serverId := serverId;
      lifecycle, sequence, settles, handed, closed, ended := Disconnected, 0, map[], {}, {}, {};
      entered, handled := [], [];
    }

    ghost function Model(): Connection
      reads this
    {
      Connection(serverId, lifecycle, sequence, handed, closed, ended, settles, entered, handled)
    }

    method SettlePromise(id: nat)
      modifies this`settles
      ensures Model() == SettleHandshake(old(Model()), id)
    {
      settles := settles[id := (if id in settles then settles[id] else 0) + 1];
    }

    /** What a callback does. */
    method RunCalls(calls: Calls)
      modifies this
      ensures Model() == React(old(Model()), calls)
      decreases calls, 0
    {
      match calls
      case Nothing =>
      case Then(Disconnect, nested, rest) =>
        FailAndCloseConnection(nested);
        RunCalls(rest);
      case Then(Connect, nested, rest) =>
        var _ := Open(nested);
        RunCalls(rest);
    }

    method Open(calls: Calls) returns (accepted: bool)
      modifies this
      ensures accepted <==> old(lifecycle) == Disconnected
      ensures Model() == ConnectNow(old(Model()), calls)
      decreases calls, 1
    {
      if lifecycle != Disconnected {
        return false;
      }
      sequence := sequence + 1;
      lifecycle := Connecting(sequence, false);
      RunCalls(calls);
      accepted := true;
    }

    method FailConnection(calls: Calls)
      modifies this
      ensures Model() == Fail(old(Model()), calls)
      decreases calls, 1
    {
      var current := lifecycle;
      if current == Disconnected {
        return;
      }
      lifecycle := Disconnected;
      if current.Connecting? || current.pending {
        SettlePromise(current.id);
      }
      RunCalls(calls);
    }

    method FailAndCloseConnection(calls: Calls)
      modifies this
      ensures Model() == FailAndClose(old(Model()), calls)
      decreases calls, 2
    {
      var current := lifecycle;
      FailConnection(calls);
      if HasTransport(current) {
        closed := closed + {current.id};
      }
    }

    /** `#openTransport` once the factory has delivered. */
    method TransportOpened(id: nat)
      requires 0 < id <= sequence && id !in handed
      modifies this`handed, this`closed, this`lifecycle
      ensures Model() == Step(old(Model()), FactoryResolves(id))
    {
      handed := handed + {id};
      if !lifecycle.Connecting? || lifecycle.id != id {
        closed := closed + {id};
        return;
      }
      lifecycle := Connecting(id, true);
    }

    method TransportClosed(id: nat, calls: Calls)
      modifies this
      ensures Model() == Step(old(Model()), Closes(id, calls))
    {
      ended := ended + {id};
      if lifecycle != Disconnected && lifecycle.id == id {
        FailConnection(calls);
      }
    }

    method HandleServerMessage(ghost from: nat, message: ServerMessage, reaction: Reaction)
      modifies this
      ensures Model() == HandleMessage(old(Model()), from, message, reaction)
    {
      var current := lifecycle;
      if current.Connecting? {
        if message != Hello(serverId) || !current.transport {
          FailAndCloseConnection(reaction.change);
          return;
        }
        var connected := Connected(current.id, true);
        lifecycle := connected;
        entered := entered + [Entered(current.id, from, message.serverId)];
        RunCalls(reaction.handshake);
        if reaction.throws {
          if lifecycle == connected {
            FailAndCloseConnection(reaction.change);
          }
          return;
        }
        if lifecycle != connected {
          return;
        }
        RunCalls(reaction.change);
        if lifecycle != connected {
          return;
        }
        lifecycle := Connected(current.id, false);
        SettlePromise(current.id);
        return;
      }
      if !current.Connected? {
        return;
      }
      if !message.Payload? {
        FailAndCloseConnection(reaction.change);
        return;
      }
      RunCalls(reaction.change);
    }

    /** `#handleData` for a chunk that decodes. */
    method ReceiveData(id: nat, messages: seq<(ServerMessage, Reaction)>)
      modifies this
      ensures Model() == Step(old(Model()), Data(id, messages))
    {
      hide React, FailAndClose, HandleMessage;
      if lifecycle == Disconnected || lifecycle.id != id {
        return;
      }
      if lifecycle.Connecting? && !lifecycle.transport {
        FailAndCloseConnection(Nothing);
        return;
      }
      for i := 0 to |messages|
        modifies this
        invariant Model() == Dispatch(old(Model()), id, messages[..i])
      {
        assert messages[..i + 1][..i] == messages[..i];
        if lifecycle != Disconnected {
          handled := handled + [(id, lifecycle.id)];
          HandleServerMessage(id, messages[i].0, messages[i].1);
        }
      }
      assert messages[..|messages|] == messages;
    }
  }
}
