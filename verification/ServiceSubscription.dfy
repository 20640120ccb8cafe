/**
  A service subscription: wire updates may arrive before the snapshot response and before `start()`, yet
  the stateful decoder sees the snapshot first and then every update in arrival order.

  The decoder is a parameter. It is stateful, so what it makes of an input may depend on every input
  before it.
 */
module ServiceSubscription {
  import opened Wrappers

  type Wire = string
  type Update = string

  datatype Decoder = Decoder(snapshot: Wire -> bool, update: (seq<Wire>, Wire) -> Option<Update>)

  datatype Subscription = Subscription(
    registered: bool,          // in the client's listener table
    hydrated: bool,
    ready: bool,
    returned: bool,            // subscribeService has handed the subscription out
    disposed: bool,
    cleared: bool,             // the disposal has emptied the queues
    history: seq<Wire>,        // what the decoder has seen
    queuedWire: seq<Wire>,
    queued: seq<Update>,
    tail: seq<Update>,         // deliveries that wait for the listener
    busy: bool,                // the listener is working on one
    delivered: seq<Update>,    // updates handed to the listener
    arrivals: seq<Wire>,       // wire updates that arrived while registered
    calls: seq<Call>)          // the listener's calls and their ends

  datatype Call = Called(update: Update) | Settled

  const INITIAL := Subscription(true, false, false, false, false, false, [], [], [], [], false, [], [], [])

  datatype Action =
    | WireUpdate(wire: Wire)
    | Snapshot(wire: Wire)     // the subscribe response
    | Return                   // subscribeService resumes and checks that it is still registered
    | SubscribeFails           // aborted, or an error response
    | Start
    | Deliver
    | ListenerDone
    | Dispose
    | DisposeEnds              // the finally block: the unsubscribe call failed, or the deliveries are through
    | Disconnect

  /** The decoder over a list of updates: the history, the outputs, and whether it got through. */
  datatype Decoding = Decoding(history: seq<Wire>, outputs: seq<Update>, ok: bool)

  function DecodeAll(d: Decoder, history: seq<Wire>, wires: seq<Wire>): Decoding {
    if wires == [] then Decoding(history, [], true)
    else
      var before := DecodeAll(d, history, wires[..|wires| - 1]);
      if !before.ok then before
      else
        match d.update(before.history, wires[|wires| - 1])
        case None => before.(ok := false)
        case Some(u) => Decoding(before.history + [wires[|wires| - 1]], before.outputs + [u], true)
  }

  /** A wire update: queued undecoded, or decoded and then delivered or queued. */
  function Receive(d: Decoder, s: Subscription, w: Wire): (r: Subscription)
    ensures r.calls == s.calls && r.delivered == s.delivered && r.busy == s.busy
  {
    if !s.registered then s
    else
      var s1 := s.(arrivals := s.arrivals + [w]);
      if !s.hydrated then s1.(queuedWire := s.queuedWire + [w])
      else
        match d.update(s.history, w)
        case None => s1.(registered := false)
        case Some(u) =>
          var s2 := s1.(history := s.history + [w]);
          if s.ready then s2.(tail := s.tail + [u]) else s2.(queued := s.queued + [u])
  }

  /** The subscribe response: the snapshot, then everything that waited. */
  function HydrateWith(d: Decoder, s: Subscription, w: Wire): (r: Subscription)
    ensures r.calls == s.calls && r.delivered == s.delivered && r.busy == s.busy
  {
    if s.hydrated || s.returned then s
    else if !d.snapshot(w) then s.(registered := false)
    else
      var r := DecodeAll(d, [w], s.queuedWire);
      s.(hydrated := true, history := r.history, queuedWire := [], queued := s.queued + r.outputs,
         registered := s.registered && r.ok)
  }

  /** A decoder failure fails the connection, which drops the subscription. */
  function Step(d: Decoder, s: Subscription, action: Action): Subscription {
    match action
    case WireUpdate(w) => Receive(d, s, w)
    case Snapshot(w) => HydrateWith(d, s, w)
    case Return => if s.registered && s.hydrated then s.(returned := true) else s
    case SubscribeFails => if s.returned then s else s.(registered := false)
    case Start =>
      if !s.returned || s.disposed || s.ready then s
      else s.(ready := true, tail := s.tail + s.queued, queued := [])
    case Deliver =>
      if s.busy || s.tail == [] then s
      else s.(delivered := s.delivered + [s.tail[0]], tail := s.tail[1..], busy := true,
              calls := s.calls + [Called(s.tail[0])])
    case ListenerDone => if s.busy then s.(busy := false, calls := s.calls + [Settled]) else s
    case Dispose => if !s.returned || s.disposed then s else s.(disposed := true, registered := false)
    case DisposeEnds =>
      if s.disposed then s.(cleared := true, queuedWire := [], queued := []) else s
    case Disconnect => s.(registered := false)
  }

  function Run(d: Decoder, s: Subscription, actions: seq<Action>): Subscription
    decreases |actions|
  {
    if actions == [] then s else Run(d, Step(d, s, actions[0]), actions[1..])
  }

  // ---- The decoder's view ------------------------------------------------------------

  /** What a decoder that starts from a snapshot makes of a history. */
  ghost predicate Decodes(d: Decoder, history: seq<Wire>, outputs: seq<Update>) {
    && history != [] && d.snapshot(history[0])
    && DecodeAll(d, [history[0]], history[1..]) == Decoding(history, outputs, true)
  }

  lemma DecodesOne(d: Decoder, history: seq<Wire>, outputs: seq<Update>, w: Wire)
    requires Decodes(d, history, outputs) && d.update(history, w).Some?
    ensures Decodes(d, history + [w], outputs + [d.update(history, w).value])
  {
    assert (history + [w])[1..] == history[1..] + [w];
    assert (history[1..] + [w])[..|history[1..]|] == history[1..];
  }

  /** A history that starts with a snapshot decodes, however far the decoder got. */
  lemma {:induction false} DecodeAllDecodes(d: Decoder, snapshot: Wire, wires: seq<Wire>)
    requires d.snapshot(snapshot)
    ensures var r := DecodeAll(d, [snapshot], wires);
            && Decodes(d, r.history, r.outputs)
            && r.history[1..] <= wires
            && (r.ok ==> r.history == [snapshot] + wires)
  {
    if wires == [] {
      assert DecodeAll(d, [snapshot], []) == Decoding([snapshot], [], true);
      assert [snapshot][1..] == [];
    } else {
      var n := |wires| - 1;
      DecodeAllDecodes(d, snapshot, wires[..n]);
      var before := DecodeAll(d, [snapshot], wires[..n]);
      if before.ok && d.update(before.history, wires[n]).Some? {
        DecodesOne(d, before.history, before.outputs, wires[n]);
        assert before.history + [wires[n]] == [snapshot] + wires;
        assert ([snapshot] + wires)[1..] == wires;
      }
    }
  }

  // ---- The invariant -----------------------------------------------------------------

  /**
    Before the snapshot everything waits undecoded. After it the decoder has seen the snapshot and then
    arrivals in order, what it made of them is delivered, about to be delivered or queued, in order, and
    while the subscription is registered nothing is missing.
   */
  ghost predicate Inv(d: Decoder, s: Subscription) {
    && (s.cleared ==> s.disposed) && (s.disposed ==> s.returned && !s.registered) && (s.returned ==> s.hydrated)
    && (s.ready ==> s.returned && s.queued == []) && (!s.ready ==> s.tail == [] && s.delivered == [])
    && (if !s.hydrated
        then s.history == [] && s.queuedWire == s.arrivals && s.queued == []
        else
          && s.queuedWire == [] && s.history != [] && s.history[1..] <= s.arrivals
          && (s.registered ==> s.history[1..] == s.arrivals)
          && (!s.cleared ==> Decodes(d, s.history, s.delivered + s.tail + s.queued))
          && (exists outputs :: Decodes(d, s.history, outputs) && s.delivered + s.tail + s.queued <= outputs))
  }

  /** The listener's calls: each one settled before the next, and one for each delivered update, in order. */
  ghost predicate CallsInv(s: Subscription) {
    && |s.calls| == 2 * |s.delivered| - (if s.busy then 1 else 0)
    && (forall i :: 0 <= i < |s.calls| ==> (s.calls[i].Called? <==> i % 2 == 0))
    && (forall k :: 0 <= k < |s.delivered| ==> s.calls[2 * k] == Called(s.delivered[k]))
  }

  lemma StepKeepsCalls(d: Decoder, s: Subscription, action: Action)
    requires CallsInv(s)
    ensures CallsInv(Step(d, s, action))
  {
    hide Receive, HydrateWith, CallsInv;
    match action
    case Deliver => CallKeepsCalls(d, s);
    case ListenerDone => SettlingKeepsCalls(d, s);
    case _ => SameCalls(s, Step(d, s, action));
  }

  lemma CallKeepsCalls(d: Decoder, s: Subscription)
    requires CallsInv(s)
    ensures CallsInv(Step(d, s, Deliver))
  {
    var r := Step(d, s, Deliver);
    assert forall i :: 0 <= i < |s.calls| ==> r.calls[i] == s.calls[i];
  }

  lemma SettlingKeepsCalls(d: Decoder, s: Subscription)
    requires CallsInv(s)
    ensures CallsInv(Step(d, s, ListenerDone))
  {
    var r := Step(d, s, ListenerDone);
    assert forall i :: 0 <= i < |s.calls| ==> r.calls[i] == s.calls[i];
  }

  lemma SameCalls(s: Subscription, r: Subscription)
    requires CallsInv(s) && r.calls == s.calls && r.delivered == s.delivered && r.busy == s.busy
    ensures CallsInv(r)
  {
  }

  lemma {:induction false} RunKeepsCalls(d: Decoder, s: Subscription, actions: seq<Action>)
    requires CallsInv(s)
    ensures CallsInv(Run(d, s, actions))
    decreases |actions|
  {
    hide Step, CallsInv;
    if actions != [] {
      StepKeepsCalls(d, s, actions[0]);
      RunKeepsCalls(d, Step(d, s, actions[0]), actions[1..]);
    }
  }

  lemma WireUpdateKeepsInv(d: Decoder, s: Subscription, w: Wire)
    requires Inv(d, s)
    ensures Inv(d, Step(d, s, WireUpdate(w)))
  {
    hide Decodes;
    if s.registered && s.hydrated {
      var r := Step(d, s, WireUpdate(w));
      assert s.history[1..] <= r.arrivals;
      if d.update(s.history, w).Some? {
        var u := d.update(s.history, w).value;
        var outputs := s.delivered + s.tail + s.queued;
        DecodesOne(d, s.history, outputs, w);
        assert r.delivered + r.tail + r.queued == outputs + [u];
        assert r.history[1..] == s.history[1..] + [w];
      }
    }
  }

  lemma SnapshotKeepsInv(d: Decoder, s: Subscription, w: Wire)
    requires Inv(d, s)
    ensures Inv(d, Step(d, s, Snapshot(w)))
  {
    hide Decodes, DecodeAll;
    if !s.hydrated && d.snapshot(w) {
      DecodeAllDecodes(d, w, s.queuedWire);
      var r := DecodeAll(d, [w], s.queuedWire);
      assert s.delivered + s.tail + (s.queued + r.outputs) == r.outputs;
      assert r.ok ==> r.history[1..] == s.queuedWire;
      NonEmpty(d, r.history, r.outputs);
    }
  }

  lemma NonEmpty(d: Decoder, history: seq<Wire>, outputs: seq<Update>)
    requires Decodes(d, history, outputs)
    ensures history != []
  {
  }

  lemma StepKeepsInv(d: Decoder, s: Subscription, action: Action)
    requires Inv(d, s)
    ensures Inv(d, Step(d, s, action))
  {
    hide Decodes, DecodeAll;
    match action
    case WireUpdate(w) => WireUpdateKeepsInv(d, s, w);
    case Snapshot(w) => SnapshotKeepsInv(d, s, w);
    case Start =>
      assert s.delivered + (s.tail + s.queued) + [] == s.delivered + s.tail + s.queued;
    case Deliver =>
      if !s.busy && s.tail != [] {
        assert (s.delivered + [s.tail[0]]) + s.tail[1..] + s.queued == s.delivered + s.tail + s.queued;
      }
    case _ =>
  }

  lemma {:induction false} RunKeepsInv(d: Decoder, s: Subscription, actions: seq<Action>)
    requires Inv(d, s)
    ensures Inv(d, Run(d, s, actions))
    decreases |actions|
  {
    hide Inv, Step;
    if actions != [] {
      StepKeepsInv(d, s, actions[0]);
      RunKeepsInv(d, Step(d, s, actions[0]), actions[1..]);
    }
  }

  /**
    Subscription order: for every interleaving of wire updates, the response and `start()`, as long as the
    subscription is registered the decoder has seen the snapshot and then exactly the updates that are not
    still waiting undecoded, and the updates delivered, on their way and queued are all it made of them.
   */
  lemma SubscriptionOrder(d: Decoder, actions: seq<Action>)
    ensures var s := Run(d, INITIAL, actions);
            s.registered ==>
              if s.hydrated
              then s.queuedWire == [] && s.history != [] && s.history[1..] == s.arrivals
                  && Decodes(d, s.history, s.delivered + s.tail + s.queued)
              else s.history == [] && s.queuedWire == s.arrivals && s.delivered + s.tail + s.queued == []
  {
    hide Run, Decodes;
    RunKeepsInv(d, INITIAL, actions);
  }

  /**
    Whatever happens, also after a disposal or a disconnect, what the listener got is a prefix of what the
    decoder made of the arrivals, in order.
   */
  lemma DeliveredInOrder(d: Decoder, actions: seq<Action>)
    ensures var s := Run(d, INITIAL, actions);
            s.delivered != [] ==>
              && s.history != [] && s.history[1..] <= s.arrivals
              && exists outputs :: Decodes(d, s.history, outputs) && s.delivered <= outputs
  {
    hide Run, Decodes;
    RunKeepsInv(d, INITIAL, actions);
    var s := Run(d, INITIAL, actions);
    if s.delivered != [] {
      var outputs :| Decodes(d, s.history, outputs) && s.delivered + s.tail + s.queued <= outputs;
      assert s.delivered <= s.delivered + s.tail + s.queued;
    }
  }

  /** In every run the listener is called once for each delivered update, in order, and never while it works. */
  lemma DeliveriesNeverOverlap(d: Decoder, actions: seq<Action>)
    ensures var s := Run(d, INITIAL, actions);
            && (forall i :: 0 <= i < |s.calls| ==> (s.calls[i].Called? <==> i % 2 == 0))
            && 2 * |s.delivered| - 1 <= |s.calls| <= 2 * |s.delivered|
            && (forall k :: 0 <= k < |s.delivered| ==> s.calls[2 * k] == Called(s.delivered[k]))
  {
    hide Run;
    RunKeepsCalls(d, INITIAL, actions);
  }

  // ---- The listener object -----------------------------------------------------------

  class ActiveServiceListener {
    const decoder: Decoder
    var decoderHistory: seq<Wire>
    var queuedWireUpdates: seq<Wire>
    var queued: seq<Update>
    var deliveryTail: seq<Update>
    var hydrated: bool
    var ready: bool
    var registered: bool
    var returned: bool
    var disposed: bool
    var busy: bool
    ghost var cleared: bool
    ghost var delivered: seq<Update>
    ghost var arrivals: seq<Wire>
    ghost var calls: seq<Call>

    constructor (decoder: Decoder)
      ensures this.decoder == decoder && Model() == INITIAL
    {
      this.decoder := decoder;
      decoderHistory, queuedWireUpdates, queued, deliveryTail := [], [], [], [];
      hydrated, ready, registered, returned, disposed, busy := false, false, true, false, false, false;
      cleared, delivered, arrivals, calls := false, [], [], [];
    }

    ghost function Model(): Subscription
      reads this
    {
      Subscription(registered, hydrated, ready, returned, disposed, cleared, decoderHistory, queuedWireUpdates, queued,
                   deliveryTail, busy, delivered, arrivals, calls)
    }

    /** The `service_update` branch of `#handleMessage`. */
    method HandleUpdate(wire: Wire)
      modifies this
      ensures Model() == Step(decoder, old(Model()), WireUpdate(wire))
    {
      if !registered {
        return;
      }
      arrivals := arrivals + [wire];
      if !hydrated {
        queuedWireUpdates := queuedWireUpdates + [wire];
        return;
      }
      var update := decoder.update(decoderHistory, wire);
      if update.None? {
        registered := false;
        return;
      }
      decoderHistory := decoderHistory + [wire];
      if ready {
        deliveryTail := deliveryTail + [update.value];
      } else {
        queued := queued + [update.value];
      }
    }

    /** The transform of the subscribe response: decode the snapshot, then everything that waited. */
    method Hydrate(wire: Wire)
      requires !hydrated && !returned
      modifies this
      ensures Model() == Step(decoder, old(Model()), Snapshot(wire))
    {
      hide DecodeAll;
      if !decoder.snapshot(wire) {
        registered := false;
        return;
      }
      decoderHistory := [wire];
      hydrated := true;
      var waiting := queuedWireUpdates;
      queuedWireUpdates := [];
      var ok := DecodeWaiting(wire, waiting);
      registered := registered && ok;
    }

    /** The loop over the updates that waited; it stops at the first that cannot be decoded. */
    method DecodeWaiting(wire: Wire, waiting: seq<Wire>) returns (ok: bool)
      requires decoderHistory == [wire]
      modifies this`decoderHistory, this`queued
      ensures var r := DecodeAll(decoder, [wire], waiting);
              decoderHistory == r.history && queued == old(queued) + r.outputs && ok == r.ok
    {
      hide DecodeAll;
      var i := 0;
      ok := true;
      ghost var outputs: seq<Update> := [];
      DecodeNone(decoder, [wire], waiting);
      while i < |waiting| && ok
        modifies this`decoderHistory, this`queued
        invariant 0 <= i <= |waiting|
        invariant queued == old(queued) + outputs
        invariant DecodeAll(decoder, [wire], waiting[..i]) == Decoding(decoderHistory, outputs, ok)
      {
        DecodeNext(decoder, [wire], waiting, i);
        var update := decoder.update(decoderHistory, waiting[i]);
        if update.None? {
          ok := false;
        } else {
          decoderHistory := decoderHistory + [waiting[i]];
          queued := queued + [update.value];
          outputs := outputs + [update.value];
        }
        i := i + 1;
      }
      if ok {
        assert waiting[..i] == waiting;
      } else {
        DecodingStops(decoder, [wire], waiting, i);
      }
    }

    method StartDelivery()
      requires returned
      modifies this`ready, this`deliveryTail, this`queued
      ensures Model() == Step(decoder, old(Model()), Start)
    {
      if disposed || ready {
        return;
      }
      ready := true;
      deliveryTail := deliveryTail + queued;
      queued := [];
    }

    /** The head of the delivery chain: the listener is called once the earlier call has settled. */
    method DeliverNext() returns (update: Update)
      requires !busy && deliveryTail != []
      modifies this`deliveryTail, this`busy, this`delivered, this`calls
      ensures Model() == Step(decoder, old(Model()), Deliver) && update == old(deliveryTail)[0]
    {
      update := deliveryTail[0];
      deliveryTail := deliveryTail[1..];
      busy := true;
      delivered, calls := delivered + [update], calls + [Called(update)];
    }

    method DisposeSubscription()
      requires returned
      modifies this`disposed, this`registered
      ensures Model() == Step(decoder, old(Model()), Dispose)
    {
      if disposed {
        return;
      }
      disposed := true;
      registered := false;
    }
  }

  lemma DecodeNone(d: Decoder, history: seq<Wire>, wires: seq<Wire>)
    ensures DecodeAll(d, history, wires[..0]) == Decoding(history, [], true)
  {
  }

  lemma DecodeNext(d: Decoder, history: seq<Wire>, wires: seq<Wire>, i: nat)
    requires i < |wires| && DecodeAll(d, history, wires[..i]).ok
    ensures var before := DecodeAll(d, history, wires[..i]);
            DecodeAll(d, history, wires[..i + 1])
            == match d.update(before.history, wires[i])
               case None => before.(ok := false)
               case Some(u) => Decoding(before.history + [wires[i]], before.outputs + [u], true)
  {
    assert wires[..i + 1][..i] == wires[..i];
  }

  lemma {:induction false} DecodingStops(d: Decoder, history: seq<Wire>, wires: seq<Wire>, n: nat)
    requires n <= |wires| && !DecodeAll(d, history, wires[..n]).ok
    ensures DecodeAll(d, history, wires) == DecodeAll(d, history, wires[..n])
    decreases |wires|
  {
    if n < |wires| {
      var m := |wires| - 1;
      assert wires[..m][..n] == wires[..n];
      DecodingStops(d, history, wires[..m], n);
    } else {
      assert wires[..n] == wires;
    }
  }
}
