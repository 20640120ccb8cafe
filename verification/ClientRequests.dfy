/**
  The client's requests: which event settles the promise of each, and what stays pending.

  Callbacks (the transport's send, attachment and state listeners) run inside the client's methods and may
  call back into it, so a method that calls out leaves the rest of its work on a stack of frames: anything
  may happen before the top frame returns. Only the handshake waits for the stack to be empty, because the
  transport is always opened asynchronously.
 */
module ClientRequests {
  import opened Wrappers

  type Value = string

  datatype Error = Server(code: string) | Invalid | Aborted | Lost(reason: string) | Disposed | NotEncodable

  datatype Settlement = Resolved(value: Value) | Rejected(error: Error)

  datatype ConnectionState = Disconnected | Connecting | Connected

  datatype Frame =
    | Handling(error: Error)          // #handleConnectionStateChange, about to reject the pending requests
    | Rejecting(id: nat)              // the catch around a transform, about to reject its own request
    | Sending(id: nat)                // #request, inside the transport's send

  datatype Client = Client(
    connection: ConnectionState,
    epoch: nat,                              // how many handshakes have completed
    disposed: bool,
    sequence: nat,
    pending: set<nat>,
    watched: set<nat>,                       // requests whose abort listener is registered
    promises: map<nat, Option<Settlement>>,
    madeIn: map<nat, nat>,                   // the epoch of each accepted request
    aborted: set<nat>,
    sent: set<nat>,
    cancels: seq<(nat, nat)>,                // the cancel messages sent, with their epoch
    stack: seq<Frame>)                       // the innermost frame is the last

  function Initial(): Client {
    Client(Disconnected, 0, false, 0, {}, {}, map[], map[], {}, {}, [], [])
  }

  datatype Signal = NoSignal | LiveSignal | AbortedSignal

  datatype Reply = Success(value: Value) | Untransformable | Failure(code: string)

  datatype Action =
    | Connect
    | Handshake
    | Lose(error: Error)                     // disconnect, fail, a closed or failing transport, a failing send
    | Request(signal: Signal, encodable: bool)
    | Response(id: nat, reply: Reply)
    | Abort(id: nat)
    | Dispose
    | Return                                 // the innermost frame goes on

  // ---- The code ----------------------------------------------------------------------

  function Outcome(c: Client, id: nat): Option<Settlement> {
    if id in c.promises then c.promises[id] else None
  }

  /** A promise keeps what first settled it. */
  function Settle(c: Client, id: nat, s: Settlement): Client {
    c.(promises := if Outcome(c, id) == None then c.promises[id := Some(s)] else c.promises)
  }

  function Push(c: Client, frame: Frame): Client {
    c.(stack := c.stack + [frame])
  }

  /** `#failAndClose`: the state changes first; the handler then runs the attachment listeners. */
  function Drop(c: Client, error: Error): Client {
    c.(connection := Disconnected, stack := if c.connection == Disconnected then c.stack
        else c.stack + [Handling(error)])
  }

  function AfterRejecting(
    promises: map<nat, Option<Settlement>>, ids: set<nat>, error: Error): map<nat, Option<Settlement>>
  {
    map id | id in promises :: if id in ids && promises[id] == None then Some(Rejected(error)) else promises[id]
  }

  /** `#rejectPendingRequests` */
  function RejectAll(c: Client, error: Error): Client {
    c.(promises := AfterRejecting(c.promises, c.pending, error),
       watched := c.watched - c.pending,
       pending := {})
  }

  /** `#takePendingRequest` of an entry that is there. */
  function Take(c: Client, id: nat): Client {
    c.(pending := c.pending - {id}, watched := c.watched - {id})
  }

  function SendCancel(c: Client, id: nat): Client {
    c.(cancels := if id in c.sent && c.connection == Connected then c.cancels + [(id, c.epoch)] else c.cancels)
  }

  predicate Accepts(c: Client, signal: Signal) {
    !c.disposed && c.connection == Connected && signal != AbortedSignal
  }

  /** The entry of the next request, with its promise and its abort listener. */
  function Register(c: Client, signal: Signal): Client {
    var id := c.sequence + 1;
    c.(sequence := id,
       promises := c.promises[id := None],
       madeIn := c.madeIn[id := c.epoch],
       pending := c.pending + {id},
       watched := if signal == LiveSignal then c.watched + {id} else c.watched)
  }

  /** `#request` up to the transport's send; a refused request leaves no trace in the client. */
  function MakeRequest(c: Client, signal: Signal, encodable: bool): Client {
    if !Accepts(c, signal) then c
    else
      var id := c.sequence + 1;
      var c1 := Register(c, signal);
      if encodable then Push(c1, Sending(id)) else Settle(Take(c1, id), id, Rejected(NotEncodable))
  }

  function HandleResponse(c: Client, id: nat, reply: Reply): Client {
    if c.connection != Connected then c
    else if id !in c.pending then Drop(c, Invalid)
    else
      var c1 := Take(c, id);
      match reply
      case Success(value) => Settle(c1, id, Resolved(value))
      case Failure(code) => Settle(c1, id, Rejected(Server(code)))
      case Untransformable => Drop(Push(c1, Rejecting(id)), Invalid)
  }

  function FireAbort(c: Client, id: nat): Client {
    if id !in c.watched then c
    else SendCancel(Settle(c.(watched := c.watched - {id}, aborted := c.aborted + {id}), id, Rejected(Aborted)), id)
  }

  function DisposeNow(c: Client): Client {
    if c.disposed then c else Drop(RejectAll(c.(disposed := true), Disposed), Disposed)
  }

  function Resume(c: Client): Client {
    if c.stack == [] then c
    else
      var c1 := c.(stack := c.stack[..|c.stack| - 1]);
      match c.stack[|c.stack| - 1]
      case Handling(error) => RejectAll(c1, error)
      case Rejecting(id) => Settle(c1, id, Rejected(Invalid))
      case Sending(id) =>
        var c2 := c1.(sent := c1.sent + {id});
        if id in c2.aborted then SendCancel(c2, id) else c2
  }

  function Step(c: Client, action: Action): Client {
    match action
    case Connect => if c.disposed || c.connection != Disconnected then c else c.(connection := Connecting)
    case Handshake =>
      if c.connection == Connecting && c.stack == [] then c.(connection := Connected, epoch := c.epoch + 1) else c
    case Lose(error) => Drop(c, error)
    case Request(signal, encodable) => MakeRequest(c, signal, encodable)
    case Response(id, reply) => HandleResponse(c, id, reply)
    case Abort(id) => FireAbort(c, id)
    case Dispose => DisposeNow(c)
    case Return => Resume(c)
  }

  function Run(c: Client, actions: seq<Action>): Client
    decreases |actions|
  {
    if actions == [] then c else Run(Step(c, actions[0]), actions[1..])
  }

  // ---- What every step keeps ---------------------------------------------------------

  ghost predicate Numbered(c: Client) {
    && (forall id :: id in c.promises <==> 1 <= id <= c.sequence)
    && c.madeIn.Keys == c.promises.Keys
    && c.pending <= c.promises.Keys
    && c.watched <= c.pending
  }

  /** An accepted request that is not settled is pending, or its rejection is on the stack. */
  ghost predicate NobodyForgotten(c: Client) {
    forall id :: id in c.promises && c.promises[id] == None ==> id in c.pending || Rejecting(id) in c.stack
  }

  /** Entries outlive the connection only until the handler of its loss goes on. */
  ghost predicate PendingIsLive(c: Client) {
    && (c.pending != {} ==> c.connection == Connected || exists i :: 0 <= i < |c.stack| && c.stack[i].Handling?)
    && (c.disposed ==> c.pending == {} && c.connection == Disconnected)
    && (forall id :: id in c.pending ==> id in c.madeIn && c.madeIn[id] == c.epoch)
  }

  ghost predicate FramesInv(c: Client) {
    forall i :: 0 <= i < |c.stack| ==>
      match c.stack[i]
      case Handling(_) => true
      case Rejecting(id) => id in c.promises && id !in c.pending
      case Sending(id) => id in c.promises && id !in c.sent && id in c.madeIn && c.madeIn[id] == c.epoch
  }

  ghost predicate SendingOnce(c: Client) {
    && (forall i, j :: 0 <= i < j < |c.stack| && c.stack[i].Sending? && c.stack[j].Sending? ==>
        c.stack[i].id != c.stack[j].id)
    && (forall id :: id in c.sent ==> id in c.promises)
  }

  /** A cancel follows both the abort and the send of its request, on the same connection, and only once. */
  ghost predicate CancelsInv(c: Client) {
    && (forall id :: id in c.aborted ==> id in c.promises && id !in c.watched && c.promises[id] != None)
    && (forall i :: 0 <= i < |c.cancels| ==>
          var (id, epoch) := c.cancels[i];
          id in c.aborted && id in c.sent && id in c.madeIn && c.madeIn[id] == epoch)
    && (forall i, j :: 0 <= i < j < |c.cancels| ==> c.cancels[i].0 != c.cancels[j].0)
  }

  ghost predicate Inv(c: Client) {
    Numbered(c) && NobodyForgotten(c) && PendingIsLive(c) && FramesInv(c) && SendingOnce(c) && CancelsInv(c)
  }

  lemma DropKeepsInv(c: Client, error: Error)
    requires Inv(c)
    ensures Inv(Drop(c, error))
  {
    var r := Drop(c, error);
    if c.connection != Disconnected {
      assert forall i :: 0 <= i < |c.stack| ==> r.stack[i] == c.stack[i];
      assert forall f :: f in c.stack ==> f in r.stack;
      assert r.stack[|c.stack|].Handling?;
    }
  }

  lemma RejectAllKeepsInv(c: Client, error: Error)
    requires Inv(c)
    ensures Inv(RejectAll(c, error))
  {
    var r := RejectAll(c, error);
    assert r.promises.Keys == c.promises.Keys;
  }

  /** A fresh entry whose promise is unsettled; only the accepting connection may be up. */
  lemma RegisterKeepsInv(c: Client, signal: Signal)
    requires Inv(c) && Accepts(c, signal)
    ensures Inv(Register(c, signal))
  {
    var r := Register(c, signal);
    assert c.sequence + 1 !in c.promises;
    assert Numbered(r) && NobodyForgotten(r) && PendingIsLive(r);
    assert FramesInv(r) && SendingOnce(r);
  }

  lemma RequestKeepsInv(c: Client, signal: Signal, encodable: bool)
    requires Inv(c)
    ensures Inv(MakeRequest(c, signal, encodable))
  {
    hide Register;
    if Accepts(c, signal) {
      RegisterKeepsInv(c, signal);
      var c1 := Register(c, signal);
      var id := c.sequence + 1;
      Registered(c, signal);
      if encodable {
        SendingKeepsInv(c1, id);
      } else {
        TakeKeepsInv(c1, id, Rejected(NotEncodable));
      }
    }
  }

  lemma Registered(c: Client, signal: Signal)
    requires Inv(c) && Accepts(c, signal)
    ensures var id := c.sequence + 1;
            var r := Register(c, signal);
            id in r.pending && id !in r.sent && Sending(id) !in r.stack
  {
    assert c.sequence + 1 !in c.promises;
  }

  lemma SendingKeepsInv(c: Client, id: nat)
    requires Inv(c) && id in c.pending && id !in c.sent && Sending(id) !in c.stack
    ensures Inv(Push(c, Sending(id)))
  {
    hide CancelsInv;
    var r := Push(c, Sending(id));
    assert forall i :: 0 <= i < |c.stack| ==> r.stack[i] == c.stack[i];
    assert forall f :: f in c.stack ==> f in r.stack;
    assert Numbered(r) && NobodyForgotten(r);
    assert PendingIsLive(r) && FramesInv(r) && SendingOnce(r);
    SameCancels(c, r);
  }

  /** The invariant of the cancels does not depend on the rest. */
  lemma SameCancels(c: Client, r: Client)
    requires CancelsInv(c)
    requires r.cancels == c.cancels && r.aborted == c.aborted && r.sent == c.sent && r.madeIn == c.madeIn
        && r.watched <= c.watched
    requires forall id :: id in c.promises ==> id in r.promises && (c.promises[id] != None ==> r.promises[id] != None)
    ensures CancelsInv(r)
  {
  }

  /** Taking an entry and settling its promise. */
  lemma TakeKeepsInv(c: Client, id: nat, s: Settlement)
    requires Inv(c) && id in c.pending
    ensures Inv(Settle(Take(c, id), id, s))
  {
    hide CancelsInv;
    var r := Settle(Take(c, id), id, s);
    assert Numbered(r) && NobodyForgotten(r);
    assert PendingIsLive(r) && FramesInv(r) && SendingOnce(r);
    SameCancels(c, r);
  }

  /** Taking an entry whose rejection waits on the stack. */
  lemma RejectingKeepsInv(c: Client, id: nat)
    requires Inv(c) && id in c.pending
    ensures Inv(Push(Take(c, id), Rejecting(id)))
  {
    hide CancelsInv;
    var r := Push(Take(c, id), Rejecting(id));
    assert forall i :: 0 <= i < |c.stack| ==> r.stack[i] == c.stack[i];
    assert forall f :: f in c.stack ==> f in r.stack;
    assert r.stack[|c.stack|] == Rejecting(id);
    assert Numbered(r) && NobodyForgotten(r);
    assert PendingIsLive(r) && FramesInv(r) && SendingOnce(r);
    SameCancels(c, r);
  }

  lemma ResponseKeepsInv(c: Client, id: nat, reply: Reply)
    requires Inv(c)
    ensures Inv(HandleResponse(c, id, reply))
  {
    hide Inv, Take, Settle, Push, Drop;
    if c.connection == Connected {
      if id !in c.pending {
        DropKeepsInv(c, Invalid);
      } else {
        match reply {
          case Success(value) => TakeKeepsInv(c, id, Resolved(value));
          case Failure(code) => TakeKeepsInv(c, id, Rejected(Server(code)));
          case Untransformable =>
            RejectingKeepsInv(c, id);
            DropKeepsInv(Push(Take(c, id), Rejecting(id)), Invalid);
        }
      }
    }
  }

  lemma CancelKeepsInv(c: Client, id: nat)
    requires Inv(c) && id in c.aborted && (forall i :: 0 <= i < |c.cancels| ==> c.cancels[i].0 != id)
    requires id in c.madeIn && c.madeIn[id] == c.epoch
    ensures Inv(SendCancel(c, id))
  {
    hide NobodyForgotten, PendingIsLive, FramesInv, SendingOnce;
    SameButCancels(c, SendCancel(c, id));
  }

  lemma SameButCancels(c: Client, r: Client)
    requires NobodyForgotten(c) && PendingIsLive(c) && FramesInv(c) && SendingOnce(c) && r == c.(cancels := r.cancels)
    ensures NobodyForgotten(r) && PendingIsLive(r) && FramesInv(r) && SendingOnce(r)
  {
  }

  lemma AbortKeepsInv(c: Client, id: nat)
    requires Inv(c)
    ensures Inv(FireAbort(c, id))
  {
    hide SendCancel;
    if id in c.watched {
      assert id !in c.aborted;
      var r := Settle(c.(watched := c.watched - {id}, aborted := c.aborted + {id}), id, Rejected(Aborted));
      assert Numbered(r) && NobodyForgotten(r) && PendingIsLive(r);
      assert FramesInv(r) && SendingOnce(r) && CancelsInv(r);
      CancelKeepsInv(r, id);
    }
  }

  lemma SentKeepsInv(c: Client, id: nat)
    requires Inv(c) && c.stack != [] && c.stack[|c.stack| - 1] == Sending(id)
    ensures Inv(Resume(c))
  {
    hide SendCancel;
    var n := |c.stack| - 1;
    var c1 := c.(stack := c.stack[..n]);
    PoppedInv(c, c1);
    assert forall i :: 0 <= i < |c1.stack| ==> c1.stack[i] != Sending(id) by {
      forall i | 0 <= i < |c1.stack| ensures c1.stack[i] != Sending(id) {
        assert c.stack[i] == c1.stack[i] && c.stack[n].Sending?;
      }
    }
    var c2 := c1.(sent := c1.sent + {id});
    NowSent(c1, id);
    if id in c2.aborted {
      assert forall i :: 0 <= i < |c.cancels| ==> c.cancels[i].0 != id;
      CancelKeepsInv(c2, id);
    }
  }

  lemma NowSent(c: Client, id: nat)
    requires Inv(c) && id in c.promises && forall i :: 0 <= i < |c.stack| ==> c.stack[i] != Sending(id)
    ensures Inv(c.(sent := c.sent + {id}))
  {
    var r := c.(sent := c.sent + {id});
    assert FramesInv(r) && SendingOnce(r) && CancelsInv(r);
  }

  lemma ResumeKeepsInv(c: Client)
    requires Inv(c)
    ensures Inv(Resume(c))
  {
    hide Inv, RejectAll, Settle;
    if c.stack != [] {
      var n := |c.stack| - 1;
      match c.stack[n] {
        case Handling(error) => HandledKeepsInv(c, error);
        case Rejecting(id) => RejectedKeepsInv(c, id);
        case Sending(id) => SentKeepsInv(c, id);
      }
    }
  }

  lemma HandledKeepsInv(c: Client, error: Error)
    requires Inv(c) && c.stack != [] && c.stack[|c.stack| - 1] == Handling(error)
    ensures Inv(Resume(c))
  {
    hide Numbered, NobodyForgotten, PendingIsLive, FramesInv, SendingOnce, CancelsInv;
    RejectAllKeepsInv(c, error);
    PoppedInv(RejectAll(c, error), Resume(c));
  }

  lemma RejectedKeepsInv(c: Client, id: nat)
    requires Inv(c) && c.stack != [] && c.stack[|c.stack| - 1] == Rejecting(id)
    ensures Inv(Resume(c))
  {
    hide SendingOnce;
    var c1 := Settle(c, id, Rejected(Invalid));
    assert id in c.promises;
    assert Numbered(c1) && NobodyForgotten(c1) && PendingIsLive(c1) && FramesInv(c1);
    SameSending(c, c1);
    SameCancels(c, c1);
    PoppedInv(c1, Resume(c));
  }

  lemma SameSending(c: Client, r: Client)
    requires SendingOnce(c) && r.stack == c.stack && r.sent == c.sent && r.promises.Keys == c.promises.Keys
    ensures SendingOnce(r)
  {
  }

  /** A frame that is neither needed to reject a request nor to clear the pending ones can go. */
  lemma PoppedInv(c: Client, r: Client)
    requires Inv(c) && c.stack != [] && r == c.(stack := c.stack[..|c.stack| - 1])
    requires match c.stack[|c.stack| - 1]
             case Handling(_) => c.pending == {}
             case Rejecting(id) => id in c.promises && c.promises[id] != None
             case Sending(_) => true
    ensures Inv(r)
  {
    var top := c.stack[|c.stack| - 1];
    assert forall f :: f in c.stack ==> f in r.stack || f == top;
    if i :| 0 <= i < |c.stack| && c.stack[i].Handling? {
      assert i < |r.stack| ==> r.stack[i].Handling?;
    }
  }

  lemma StepKeepsInv(c: Client, action: Action)
    requires Inv(c)
    ensures Inv(Step(c, action))
  {
    hide Inv, MakeRequest, HandleResponse, FireAbort, DisposeNow, Resume, Drop;
    match action
    case Connect => LinkKeepsInv(c, action);
    case Handshake => LinkKeepsInv(c, action);
    case Lose(error) => DropKeepsInv(c, error);
    case Request(signal, encodable) => RequestKeepsInv(c, signal, encodable);
    case Response(id, reply) => ResponseKeepsInv(c, id, reply);
    case Abort(id) => AbortKeepsInv(c, id);
    case Dispose => DisposeKeepsInv(c);
    case Return => ResumeKeepsInv(c);
  }

  lemma LinkKeepsInv(c: Client, action: Action)
    requires Inv(c) && (action.Connect? || action.Handshake?)
    ensures Inv(Step(c, action))
  {
    hide SendingOnce, CancelsInv;
    var r := Step(c, action);
    if action.Handshake? && r != c {
      assert c.pending == {};
    }
    SameSending(c, r);
    SameCancels(c, r);
  }

  lemma DisposeKeepsInv(c: Client)
    requires Inv(c)
    ensures Inv(DisposeNow(c))
  {
    hide SendingOnce, CancelsInv, NobodyForgotten, FramesInv;
    if !c.disposed {
      RejectAllKeepsInv(c, Disposed);
      DropKeepsInv(RejectAll(c, Disposed), Disposed);
      var d := Drop(RejectAll(c, Disposed), Disposed);
      assert DisposeNow(c) == d.(disposed := true);
      SameSending(d, DisposeNow(c));
      SameCancels(d, DisposeNow(c));
      SameFrames(d, DisposeNow(c));
    }
  }

  lemma SameFrames(c: Client, r: Client)
    requires NobodyForgotten(c) && FramesInv(c) && r == c.(disposed := r.disposed)
    ensures NobodyForgotten(r) && FramesInv(r)
  {
  }

  lemma {:induction false} RunKeepsInv(c: Client, actions: seq<Action>)
    requires Inv(c)
    ensures Inv(Run(c, actions))
    decreases |actions|
  {
    hide Step, Inv;
    if actions != [] {
      StepKeepsInv(c, actions[0]);
      RunKeepsInv(Step(c, actions[0]), actions[1..]);
    }
  }

  /** In every run: what is unsettled is pending or being rejected, and cancels match aborted, sent requests. */
  lemma EveryRun(actions: seq<Action>)
    ensures Inv(Run(Initial(), actions))
  {
    hide Run, Step;
    RunKeepsInv(Initial(), actions);
  }

  /** Once the disconnect handling has run, nothing is pending and every accepted request is settled. */
  lemma NothingLeftBehind(actions: seq<Action>)
    ensures var c := Run(Initial(), actions);
            c.stack == [] && c.connection != Connected ==>
              c.pending == {} && c.watched == {} && forall id :: 1 <= id <= c.sequence ==> Outcome(c, id) != None
  {
    hide Run, Step;
    EveryRun(actions);
  }

  // ---- Which event settles a request -------------------------------------------------

  /** The event of a request that an action is, with what it settles the request to: the first one decides. */
  function Cause(c: Client, action: Action, id: nat): Option<Settlement> {
    match action
    case Response(answered, reply) =>
      if c.connection != Connected || answered != id || id !in c.pending then None
      else (match reply
            case Success(value) => Some(Resolved(value))
            case Failure(code) => Some(Rejected(Server(code)))
            case Untransformable => None)
    case Abort(fired) => if fired == id && id in c.watched then Some(Rejected(Aborted)) else None
    case Dispose => if !c.disposed && id in c.pending then Some(Rejected(Disposed)) else None
    case Request(signal, encodable) =>
      if Accepts(c, signal) && !encodable && id == c.sequence + 1 then Some(Rejected(NotEncodable)) else None
    case Return =>
      if c.stack == [] then None
      else (match c.stack[|c.stack| - 1]
            case Handling(error) => if id in c.pending then Some(Rejected(error)) else None
            case Rejecting(own) => if own == id then Some(Rejected(Invalid)) else None
            case Sending(_) => None)
    case Connect => None
    case Handshake => None
    case Lose(_) => None
  }

  function FirstCause(c: Client, actions: seq<Action>, id: nat): Option<Settlement>
    decreases |actions|
  {
    if actions == [] then None
    else
      var cause := Cause(c, actions[0], id);
      if cause != None then cause else FirstCause(Step(c, actions[0]), actions[1..], id)
  }

  /** One step settles a request if and only if it is the first event of it, and to what that event says. */
  lemma StepSettles(c: Client, action: Action, id: nat)
    requires Inv(c)
    ensures Outcome(Step(c, action), id) == if Outcome(c, id) != None then Outcome(c, id) else Cause(c, action, id)
  {
    hide NobodyForgotten, PendingIsLive, SendingOnce, CancelsInv, Resume;
    match action
    case Request(signal, encodable) => assert c.sequence + 1 !in c.promises;
    case Return => ResumeSettles(c, id);
    case _ =>
  }

  lemma ResumeSettles(c: Client, id: nat)
    requires Inv(c)
    ensures Outcome(Resume(c), id) == if Outcome(c, id) != None then Outcome(c, id) else Cause(c, Return, id)
  {
    hide NobodyForgotten, PendingIsLive, SendingOnce, CancelsInv;
  }

  /** A request is settled by the first of its events, to what that event says, and by nothing else, ever. */
  lemma {:induction false} FirstEventWins(c: Client, actions: seq<Action>, id: nat)
    requires Inv(c)
    ensures Outcome(Run(c, actions), id) == if Outcome(c, id) != None then Outcome(c, id)
        else FirstCause(c, actions, id)
    decreases |actions|
  {
    hide Step, Inv, Cause, Outcome;
    if actions != [] {
      StepSettles(c, actions[0], id);
      StepKeepsInv(c, actions[0]);
      FirstEventWins(Step(c, actions[0]), actions[1..], id);
    }
  }

  // ---- Entries -----------------------------------------------------------------------

  /** A response consumes its own entry and no other, and without an entry it fails the connection. */
  lemma ResponseConsumesOne(c: Client, id: nat, reply: Reply)
    requires Inv(c) && c.connection == Connected
    ensures var r := Step(c, Response(id, reply));
            && r.pending == c.pending - {id}
            && (id !in c.pending ==> r == Push(c.(connection := Disconnected), Handling(Invalid)))
            && (id in c.pending ==> (r.connection == Connected <==> !reply.Untransformable?))
            && (forall other :: other != id ==> Outcome(r, other) == Outcome(c, other))
  {
  }

  lemma EntryStaysGone(c: Client, action: Action, id: nat)
    requires id <= c.sequence && id !in c.pending
    ensures id !in Step(c, action).pending && id <= Step(c, action).sequence
  {
  }

  lemma {:induction false} EntriesNeverReturn(c: Client, actions: seq<Action>, id: nat)
    requires Inv(c) && id <= c.sequence && id !in c.pending
    ensures id !in Run(c, actions).pending && id <= Run(c, actions).sequence
    decreases |actions|
  {
    hide Inv, Step;
    if actions != [] {
      StepKeepsInv(c, actions[0]);
      EntryStaysGone(c, actions[0], id);
      EntriesNeverReturn(Step(c, actions[0]), actions[1..], id);
    }
  }

  /** Whatever happens in between, a second response to the same request fails the connection. */
  lemma SecondResponseFails(c: Client, id: nat, reply: Reply, actions: seq<Action>, again: Reply)
    requires Inv(c) && c.connection == Connected && id in c.pending
    ensures var d := Run(Step(c, Response(id, reply)), actions);
            d.connection == Connected ==>
              var r := Step(d, Response(id, again));
              r.connection == Disconnected && r.promises == d.promises && r.pending == d.pending
  {
    hide Run;
    var c1 := Step(c, Response(id, reply));
    StepKeepsInv(c, Response(id, reply));
    EntriesNeverReturn(c1, actions, id);
  }

  /**
    An aborted request is rejected at once but stays pending, so that its late response is still matched: it is
    consumed and settles nothing, and only a reply that cannot be transformed fails the connection.
   */
  lemma LateResponseIsIgnored(c: Client, id: nat, actions: seq<Action>, reply: Reply)
    requires Inv(c) && id in c.watched && Outcome(c, id) == None
    ensures var d := Run(Step(c, Abort(id)), actions);
            && Outcome(d, id) == Some(Rejected(Aborted))
            && (d.connection == Connected && id in d.pending ==>
                  var r := Step(d, Response(id, reply));
                  && r.promises == d.promises && r.pending == d.pending - {id}
                  && (r.connection == Connected <==> !reply.Untransformable?))
    ensures id in Step(c, Abort(id)).pending
  {
    hide Run;
    var c1 := Step(c, Abort(id));
    StepKeepsInv(c, Abort(id));
    RunKeepsInv(c1, actions);
    FirstEventWins(c1, actions, id);
  }

  lemma RejectNone(promises: map<nat, Option<Settlement>>, error: Error)
    ensures AfterRejecting(promises, {}, error) == promises
  {
  }

  lemma RejectOneMore(promises: map<nat, Option<Settlement>>, ids: set<nat>, id: nat, error: Error)
    requires id in promises && id !in ids
    ensures var before := AfterRejecting(promises, ids, error);
            && id in before
            && AfterRejecting(promises, ids + {id}, error)
               == if before[id] == None then before[id := Some(Rejected(error))] else before
  {
  }

  /** The elements of a set in increasing order. */
  ghost predicate Lists(list: seq<nat>, ids: set<nat>) {
    (forall id :: id in ids <==> id in list) && forall i, j :: 0 <= i < j < |list| ==> list[i] < list[j]
  }

  lemma NothingListed()
    ensures Lists([], {})
  {
  }

  lemma ListedOneMore(list: seq<nat>, ids: set<nat>, id: nat)
    requires Lists(list, ids) && forall k :: k in ids ==> k < id
    ensures Lists(list + [id], ids + {id})
  {
    forall i | 0 <= i < |list| ensures list[i] < id {
      assert list[i] in ids;
    }
  }

  // ---- The client object -------------------------------------------------------------

  class RequestClient {
    var connection: ConnectionState
    var disposed: bool
    var sequence: nat
    var pending: set<nat>
    var watched: set<nat>
    var promises: map<nat, Option<Settlement>>
    var aborted: set<nat>
    var sent: set<nat>
    ghost var epoch: nat
    ghost var madeIn: map<nat, nat>
    ghost var cancels: seq<(nat, nat)>
    ghost var stack: seq<Frame>

    constructor ()
      ensures Model() == Initial()
    {
      connection, disposed, sequence, pending, watched, promises := Disconnected, false, 0, {}, {}, map[];
      aborted, sent, epoch, madeIn, cancels, stack := {}, {}, 0, map[], [], [];
    }

    ghost function Model(): Client
      reads this
    {
      Client(connection, epoch, disposed, sequence, pending, watched, promises, madeIn, aborted, sent, cancels, stack)
    }

    method SettlePromise(id: nat, settlement: Settlement)
      modifies this`promises
      ensures Model() == Settle(old(Model()), id, settlement)
      ensures promises == if id in old(promises) && old(promises)[id] != None then old(promises)
          else old(promises)[id := Some(settlement)]
    {
      if id !in promises || promises[id] == None {
        promises := promises[id := Some(settlement)];
      }
    }

    /** Snapshots the entries, clears them, and rejects one after the other in the order of the requests. */
    method RejectPendingRequests(error: Error) returns (rejected: seq<nat>)
      requires Numbered(Model())
      modifies this`promises, this`pending, this`watched
      ensures Model() == RejectAll(old(Model()), error)
      ensures Lists(rejected, old(pending))
    {
      hide AfterRejecting, Settle, Outcome, Lists;
      var requests := pending;
      pending := {};
      rejected := [];
      ghost var done: set<nat> := {};
      NothingListed();
      RejectNone(promises, error);
      for id := 1 to sequence + 1
        invariant pending == {} && watched == old(watched) - done
        invariant forall k :: k in done <==> k in requests && k < id
        invariant Lists(rejected, done)
        invariant promises == AfterRejecting(old(promises), done, error)
      {
        if id in requests {
          RejectOneMore(old(promises), done, id, error);
          ListedOneMore(rejected, done, id);
          watched := watched - {id};
          SettlePromise(id, Rejected(error));
          rejected, done := rejected + [id], done + {id};
        }
      }
      assert done == requests;
    }

    /** `#takePendingRequest` */
    method TakePendingRequest(id: nat) returns (found: bool)
      modifies this`pending, this`watched
      ensures found <==> id in old(pending)
      ensures Model() == if found then Take(old(Model()), id) else old(Model())
    {
      found := id in pending;
      if found {
        pending := pending - {id};
        watched := watched - {id};
      }
    }

    /** `#failAndClose`, up to the attachment listeners. */
    method LoseConnection(error: Error)
      modifies this`connection, this`stack
      ensures Model() == Step(old(Model()), Lose(error))
    {
      if connection != Disconnected {
        connection := Disconnected;
        stack := stack + [Handling(error)];
      }
    }

    method Cancel(id: nat)
      modifies this`cancels
      ensures Model() == SendCancel(old(Model()), id)
    {
      if id in sent && connection == Connected {
        cancels := cancels + [(id, epoch)];
      }
    }

    method RegisterRequest(signal: Signal)
      modifies this`sequence, this`promises, this`madeIn, this`pending, this`watched
      ensures Model() == Register(old(Model()), signal)
    {
      sequence := sequence + 1;
      promises := promises[sequence := None];
      madeIn := madeIn[sequence := epoch];
      if signal == LiveSignal {
        watched := watched + {sequence};
      }
      pending := pending + {sequence};
    }

    /** `#request` up to the transport's send: None if refused. */
    method SendRequest(signal: Signal, encodable: bool) returns (id: Option<nat>)
      modifies this
      ensures Model() == Step(old(Model()), Request(signal, encodable))
      ensures id == if Accepts(old(Model()), signal) then Some(old(sequence) + 1) else None
    {
      hide Settle, Take;
      if disposed || connection != Connected || signal == AbortedSignal {
        return None;
      }
      RegisterRequest(signal);
      var number := sequence;
      assert number in pending;
      if !encodable {
        var taken := TakePendingRequest(number);
        if taken {
          SettlePromise(number, Rejected(NotEncodable));
        }
      } else {
        stack := stack + [Sending(number)];
      }
      id := Some(number);
    }

    /** The rest of `#request` once the transport's send has returned. */
    method RequestSent(id: nat)
      requires stack != [] && stack[|stack| - 1] == Sending(id)
      modifies this
      ensures Model() == Step(old(Model()), Return)
    {
      stack := stack[..|stack| - 1];
      sent := sent + {id};
      if id in aborted {
        Cancel(id);
      }
    }

    /** The rest of `#handleConnectionStateChange` once the attachment listeners have run. */
    method ConnectionLost(error: Error)
      requires Inv(Model()) && stack != [] && stack[|stack| - 1] == Handling(error)
      modifies this
      ensures Model() == Step(old(Model()), Return)
      ensures pending == {} && Inv(Model())
    {
      StepKeepsInv(Model(), Return);
      stack := stack[..|stack| - 1];
      var _ := RejectPendingRequests(error);
    }

    /** A response, up to the call of `fail` where its result cannot be transformed. */
    method ReceiveResponse(id: nat, reply: Reply)
      requires connection == Connected
      modifies this
      ensures Model() == Step(old(Model()), Response(id, reply))
    {
      var found := TakePendingRequest(id);
      if !found {
        LoseConnection(Invalid);
        return;
      }
      match reply
      case Success(value) => SettlePromise(id, Resolved(value));
      case Failure(code) => SettlePromise(id, Rejected(Server(code)));
      case Untransformable =>
        stack := stack + [Rejecting(id)];
        LoseConnection(Invalid);
    }

    method SignalAborted(id: nat)
      modifies this
      ensures Model() == Step(old(Model()), Abort(id))
    {
      if id in watched {
        watched := watched - {id};
        aborted := aborted + {id};
        SettlePromise(id, Rejected(Aborted));
        Cancel(id);
      }
    }

    method DisposeClient()
      requires Inv(Model())
      modifies this
      ensures Model() == Step(old(Model()), Dispose)
      ensures disposed && pending == {} && Inv(Model())
    {
      StepKeepsInv(Model(), Dispose);
      if disposed {
        return;
      }
      disposed := true;
      var _ := RejectPendingRequests(Disposed);
      LoseConnection(Disposed);
    }
  }
}
