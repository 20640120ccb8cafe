/**
  Model refresh and publication for one provider: generations, abort controllers and the chain of
  publications over the store. An action is one atomic segment between two awaits; a list of actions
  is one interleaving of refreshes, provider replacements, aborts, publications and store operations.
 */
module ModelRefresh {
  import opened Wrappers
  import opened ModelOverlay

  datatype Persist = Keep | Delete | Write(models: seq<Model>)

  /** One `refresh` of the provider; its signal combines the controller's and the caller's. */
  datatype Refresh = Refresh(controllerAborted: bool, callerAborted: bool, finished: bool)

  datatype Phase = Queued | Writing | Stored | Settled(outcome: Outcome)

  datatype Outcome = Published | Refused | StoreFailed

  /** A publication and the earlier one it waits for. */
  datatype Publication = Publication(generation: nat, previous: Option<nat>, persist: Persist,
      update: Option<seq<Model>>, phase: Phase)

  datatype Provider = Provider(
    generation: nat,
    controller: Option<nat>,            // the generation of the refresh whose controller is registered
    refreshes: map<nat, Refresh>,
    publications: seq<Publication>,
    chain: Option<nat>,                 // the tail of the publication chain
    store: Option<seq<Model>>,
    overlay: seq<Model>,                // dynamicModels of the provider object at hand
    writes: seq<nat>,                   // generations of store operations, in the order they took effect
    updates: seq<nat>)                  // generations of in-memory updates, in order

  const INITIAL := Provider(0, None, map[], [], None, None, [], [], [])

  datatype Action =
    | Replace(overlay: seq<Model>)                                         // setProvider, deleteProvider
    | Begin                                                                // beginProviderRefresh
    | CallerAborts(generation: nat)
    | Finish(generation: nat)                                              // the refresh settles
    | Publish(generation: nat, persist: Persist, update: Option<seq<Model>>)
    | Proceed(p: nat)                                                      // the awaited publication has settled
    | StoreReturns(p: nat, ok: bool, effect: bool)
    | Complete(p: nat)
    | Forget(p: nat)                                                       // drop a settled tail

  predicate SignalAborted(s: Provider, generation: nat) {
    generation in s.refreshes
    && (s.refreshes[generation].controllerAborted || s.refreshes[generation].callerAborted)
  }

  predicate Stale(s: Provider, generation: nat) {
    SignalAborted(s, generation) || s.generation != generation
  }

  function Supersede(s: Provider): Provider {
    var s1 := s.(generation := s.generation + 1);
    if s.controller.Some? && s.controller.value in s.refreshes then
      var g := s.controller.value;
      s1.(controller := None, refreshes := s.refreshes[g := s.refreshes[g].(controllerAborted := true)])
    else s1.(controller := None)
  }

  /** Another provider object, with models of its own: none if it is new or if there is none any more. */
  function ReplaceWith(s: Provider, overlay: seq<Model>): Provider {
    Supersede(s).(overlay := overlay)
  }

  function BeginRefresh(s: Provider): Provider {
    var s1 := Supersede(s);
    s1.(controller := Some(s1.generation), refreshes := s1.refreshes[s1.generation := Refresh(false, false, false)])
  }

  function SetPhase(s: Provider, p: nat, phase: Phase): Provider
    requires p < |s.publications|
  {
    s.(publications := s.publications[p := s.publications[p].(phase := phase)])
  }

  /** The second staleness check, then the update. */
  function Conclude(s: Provider, p: nat): Provider
    requires p < |s.publications|
  {
    var pub := s.publications[p];
    if Stale(s, pub.generation) then SetPhase(s, p, Settled(Refused))
    else
      var s1 := SetPhase(s, p, Settled(Published));
      if pub.update.Some? then s1.(overlay := pub.update.value, updates := s.updates + [pub.generation]) else s1
  }

  predicate MayProceed(s: Provider, p: nat) {
    && p < |s.publications| && s.publications[p].phase == Queued
    && (s.publications[p].previous.Some? ==>
          s.publications[p].previous.value < |s.publications|
          && s.publications[s.publications[p].previous.value].phase.Settled?)
  }

  function Step(s: Provider, action: Action): Provider {
    match action
    case Replace(overlay) => ReplaceWith(s, overlay)
    case Begin => BeginRefresh(s)
    case CallerAborts(g) =>
      if g in s.refreshes then s.(refreshes := s.refreshes[g := s.refreshes[g].(callerAborted := true)]) else s
    case Finish(g) =>
      if g in s.refreshes
      then s.(refreshes := s.refreshes[g := s.refreshes[g].(finished := true)],
              controller := if s.controller == Some(g) then None else s.controller)
      else s
    case Publish(g, persist, update) =>
      if g in s.refreshes
      then s.(publications := s.publications + [Publication(g, s.chain, persist, update, Queued)],
              chain := Some(|s.publications|))
      else s
    case Proceed(p) =>
      if !MayProceed(s, p) then s
      else if Stale(s, s.publications[p].generation) then SetPhase(s, p, Settled(Refused))
      else if s.publications[p].persist == Keep then Conclude(s, p)
      else SetPhase(s, p, Writing)
    case StoreReturns(p, ok, effect) =>
      if p < |s.publications| && s.publications[p].phase == Writing && (ok ==> effect) then
        var pub := s.publications[p];
        var s1 := SetPhase(s, p, if ok then Stored else Settled(StoreFailed));
        if effect
        then s1.(store := Written(pub.persist), writes := s.writes + [pub.generation])
        else s1
      else s
    case Complete(p) =>
      if p < |s.publications| && s.publications[p].phase == Stored then Conclude(s, p) else s
    case Forget(p) =>
      if p < |s.publications| && s.publications[p].phase.Settled? && s.chain == Some(p) then s.(chain := None) else s
  }

  function Run(s: Provider, actions: seq<Action>): Provider
    decreases |actions|
  {
    if actions == [] then s else Run(Step(s, actions[0]), actions[1..])
  }

  // ---- The invariant -----------------------------------------------------------------

  predicate InFlight(phase: Phase) {
    phase == Writing || phase == Stored
  }

  ghost predicate Sorted(generations: seq<nat>) {
    forall i, j :: 0 <= i < j < |generations| ==> generations[i] <= generations[j]
  }

  ghost predicate AtMost(generations: seq<nat>, bound: nat) {
    forall i :: 0 <= i < |generations| ==> generations[i] <= bound
  }

  /** Every live controller is the registered one, and it belongs to the newest generation. */
  ghost predicate ControllersInv(s: Provider) {
    && (forall g :: g in s.refreshes ==> g <= s.generation)
    && (s.controller.Some? ==> s.controller.value == s.generation && s.controller.value in s.refreshes)
    && (forall g :: g in s.refreshes && !s.refreshes[g].finished && !s.refreshes[g].controllerAborted ==>
        s.controller == Some(g))
  }

  /** All publications before index `n` have settled. */
  ghost predicate SettledBefore(pubs: seq<Publication>, n: nat)
    requires n <= |pubs|
  {
    forall q :: 0 <= q < n ==> pubs[q].phase.Settled?
  }

  /** The publications form one chain, and only the first unsettled one may be past its wait. */
  ghost predicate Chained(pubs: seq<Publication>, chain: Option<nat>) {
    && (forall p :: 0 <= p < |pubs| ==>
          (pubs[p].previous == Some(p - 1) && p > 0) || (pubs[p].previous == None && SettledBefore(pubs, p)))
    && (chain == None ==> SettledBefore(pubs, |pubs|))
    && (chain.Some? ==> chain.value == |pubs| - 1)
    && (forall p :: 0 <= p < |pubs| && pubs[p].phase != Queued ==> SettledBefore(pubs, p))
  }

  /** Store operations and updates take effect in the order of generations. */
  ghost predicate OrderInv(s: Provider) {
    && Sorted(s.writes) && AtMost(s.writes, s.generation)
    && Sorted(s.updates) && AtMost(s.updates, s.generation)
  }

  /** What is in flight writes, is no older than any write so far, and once stored is what the store holds. */
  ghost predicate FlightInv(pubs: seq<Publication>, writes: seq<nat>, store: Option<seq<Model>>, generation: nat) {
    forall p :: 0 <= p < |pubs| && InFlight(pubs[p].phase) ==>
      && AtMost(writes, pubs[p].generation) && pubs[p].generation <= generation && pubs[p].persist != Keep
      && (pubs[p].phase == Stored ==> store == Written(pubs[p].persist))
  }

  function Written(persist: Persist): Option<seq<Model>> {
    if persist.Write? then Some(persist.models) else None
  }

  lemma StepKeepsControllers(s: Provider, action: Action)
    requires ControllersInv(s)
    ensures ControllersInv(Step(s, action))
  {
  }

  lemma AdvanceKeepsChain(pubs: seq<Publication>, chain: Option<nat>, p: nat, phase: Phase)
    requires Chained(pubs, chain) && p < |pubs| && phase != Queued && SettledBefore(pubs, p)
    requires pubs[p].phase.Settled? ==> phase.Settled?
    ensures Chained(pubs[p := pubs[p].(phase := phase)], chain)
  {
    var next := pubs[p := pubs[p].(phase := phase)];
    forall q | 0 <= q <= |pubs| && SettledBefore(pubs, q) ensures SettledBefore(next, q) {
    }
  }

  lemma EnqueueKeepsChain(pubs: seq<Publication>, chain: Option<nat>, pub: Publication)
    requires Chained(pubs, chain) && pub.previous == chain && pub.phase == Queued
    ensures Chained(pubs + [pub], Some(|pubs|))
  {
    var next := pubs + [pub];
    forall q | 0 <= q <= |pubs| && SettledBefore(pubs, q) ensures SettledBefore(next, q) {
    }
  }

  lemma ProceedIsFirst(s: Provider, p: nat)
    requires Chained(s.publications, s.chain) && MayProceed(s, p)
    ensures SettledBefore(s.publications, p)
  {
    if s.publications[p].previous.Some? {
      assert s.publications[p - 1].phase != Queued;
      assert SettledBefore(s.publications, p - 1);
    }
  }

  lemma StepKeepsChain(s: Provider, action: Action)
    requires Chained(s.publications, s.chain)
    ensures Chained(Step(s, action).publications, Step(s, action).chain)
  {
    hide Chained;
    var r := Step(s, action);
    match action
    case Publish(g, _, _) =>
      if g in s.refreshes { EnqueueKeepsChain(s.publications, s.chain, r.publications[|s.publications|]); }
    case Proceed(p) =>
      if MayProceed(s, p) {
        ProceedIsFirst(s, p);
        AdvanceKeepsChain(s.publications, s.chain, p, r.publications[p].phase);
      }
    case StoreReturns(p, ok, effect) =>
      if p < |s.publications| && s.publications[p].phase == Writing && (ok ==> effect) {
        BusyIsFirst(s, p);
        AdvanceKeepsChain(s.publications, s.chain, p, r.publications[p].phase);
      }
    case Complete(p) =>
      if p < |s.publications| && s.publications[p].phase == Stored {
        BusyIsFirst(s, p);
        AdvanceKeepsChain(s.publications, s.chain, p, r.publications[p].phase);
      }
    case Forget(p) => ForgetKeepsChain(s);
    case _ =>
  }

  lemma BusyIsFirst(s: Provider, p: nat)
    requires Chained(s.publications, s.chain) && p < |s.publications| && s.publications[p].phase != Queued
    ensures SettledBefore(s.publications, p)
  {
  }

  lemma ForgetKeepsChain(s: Provider)
    requires Chained(s.publications, s.chain)
    ensures s.chain.Some? && s.chain.value < |s.publications| && s.publications[s.chain.value].phase.Settled? ==>
              Chained(s.publications, None)
  {
  }

  /** Publications never overlap: at most one is between its first check and its settlement. */
  lemma NoOverlap(s: Provider, p: nat, q: nat)
    requires Chained(s.publications, s.chain) && p < |s.publications| && q < |s.publications|
    requires InFlight(s.publications[p].phase) && InFlight(s.publications[q].phase)
    ensures p == q
  {
    assert SettledBefore(s.publications, p) && SettledBefore(s.publications, q);
  }

  ghost predicate StoreInv(s: Provider) {
    OrderInv(s) && FlightInv(s.publications, s.writes, s.store, s.generation)
  }

  lemma SettleKeepsFlight(s: Provider, p: nat, outcome: Outcome)
    requires p < |s.publications| && StoreInv(s)
    ensures FlightInv(SetPhase(s, p, Settled(outcome)).publications, s.writes, s.store, s.generation)
  {
  }

  lemma ConcludeKeepsStore(s: Provider, p: nat)
    requires p < |s.publications| && StoreInv(s)
    ensures StoreInv(Conclude(s, p))
  {
    SettleKeepsFlight(s, p, Refused);
    SettleKeepsFlight(s, p, Published);
  }

  lemma StoreReturnsKeepsStore(s: Provider, p: nat, ok: bool, effect: bool)
    requires Chained(s.publications, s.chain) && StoreInv(s)
    ensures StoreInv(Step(s, StoreReturns(p, ok, effect)))
  {
    hide Chained;
    if p < |s.publications| && s.publications[p].phase == Writing {
      forall q | 0 <= q < |s.publications| && InFlight(s.publications[q].phase) ensures q == p {
        NoOverlap(s, p, q);
      }
    }
  }

  lemma StepKeepsStore(s: Provider, action: Action)
    requires Chained(s.publications, s.chain) && StoreInv(s)
    ensures StoreInv(Step(s, action))
  {
    hide Chained;
    match action
    case StoreReturns(p, ok, effect) => StoreReturnsKeepsStore(s, p, ok, effect);
    case Proceed(p) =>
      if MayProceed(s, p) {
        SettleKeepsFlight(s, p, Refused);
        ConcludeKeepsStore(s, p);
      }
    case Complete(p) =>
      if p < |s.publications| { ConcludeKeepsStore(s, p); }
    case _ =>
  }

  ghost predicate Inv(s: Provider) {
    ControllersInv(s) && Chained(s.publications, s.chain) && StoreInv(s)
  }

  lemma {:induction false} RunKeepsInv(s: Provider, actions: seq<Action>)
    requires Inv(s)
    ensures Inv(Run(s, actions))
    decreases |actions|
  {
    hide ControllersInv, Chained, StoreInv, Step;
    if actions != [] {
      StepKeepsControllers(s, actions[0]);
      StepKeepsChain(s, actions[0]);
      StepKeepsStore(s, actions[0]);
      RunKeepsInv(Step(s, actions[0]), actions[1..]);
    }
  }

  // ---- What holds in every interleaving ----------------------------------------------

  lemma EveryInterleaving(actions: seq<Action>)
    ensures var s := Run(INITIAL, actions);
            // publications never overlap
            && (forall p, q | 0 <= p < |s.publications| && 0 <= q < |s.publications|
                  && InFlight(s.publications[p].phase) && InFlight(s.publications[q].phase) :: p == q)
            // persisted writes and in-memory updates never go back to an older generation
            && Sorted(s.writes) && Sorted(s.updates)
            // at most one unfinished refresh is un-aborted, and it is of the newest generation
            && (forall g :: g in s.refreshes && !s.refreshes[g].finished && !s.refreshes[g].controllerAborted ==>
                g == s.generation)
  {
    RunKeepsInv(INITIAL, actions);
    var s := Run(INITIAL, actions);
    forall p, q | 0 <= p < |s.publications| && 0 <= q < |s.publications|
                  && InFlight(s.publications[p].phase) && InFlight(s.publications[q].phase) ensures p == q {
      NoOverlap(s, p, q);
    }
  }

  /** An in-memory update is always one of the newest generation, whose signal is not aborted. */
  lemma UpdatesAreCurrent(s: Provider, action: Action)
    ensures var r := Step(s, action);
            (r.overlay != s.overlay && !action.Replace?) || r.updates != s.updates ==>
              exists p :: 0 <= p < |s.publications|
                && s.publications[p].generation == s.generation && !SignalAborted(s, s.generation)
                && s.publications[p].update == Some(r.overlay)
                && r.publications[p].phase == Settled(Published) && r.updates == s.updates + [s.generation]
  {
    var r := Step(s, action);
    if (r.overlay != s.overlay && !action.Replace?) || r.updates != s.updates {
      assert (action.Proceed? || action.Complete?) && action.p < |s.publications|;
      assert r.publications[action.p].phase == Settled(Published);
    }
  }

  /** The overlay is the given one or that of a publication of a generation after `g`. */
  ghost predicate FromOr(s: Provider, overlay: seq<Model>, g: nat) {
    && s.generation > g
    && (s.overlay == overlay
        || exists p :: 0 <= p < |s.publications| && s.publications[p].generation > g
            && s.publications[p].update == Some(s.overlay))
  }

  lemma StepKeepsOrigin(s: Provider, action: Action, overlay: seq<Model>, g: nat)
    requires FromOr(s, overlay, g) && !action.Replace?
    ensures FromOr(Step(s, action), overlay, g)
  {
    UpdatesAreCurrent(s, action);
    KeepsPublications(s, action);
  }

  /** Publications keep what they are; only their phases change. */
  lemma KeepsPublications(s: Provider, action: Action)
    ensures var r := Step(s, action);
            && r.generation >= s.generation && |r.publications| >= |s.publications|
            && forall p :: 0 <= p < |s.publications| ==>
                 r.publications[p].generation == s.publications[p].generation
                     && r.publications[p].update == s.publications[p].update
  {
  }

  /**
    Once a provider is replaced, no refresh of the old one changes the models of the new one: they are its own
    or those of a publication that began later.
   */
  lemma {:induction false} ReplacementIsClean(s: Provider, overlay: seq<Model>, g: nat, actions: seq<Action>)
    requires FromOr(s, overlay, g)
    requires forall i :: 0 <= i < |actions| ==> !actions[i].Replace?
    ensures FromOr(Run(s, actions), overlay, g)
    decreases |actions|
  {
    hide Step, FromOr;
    if actions != [] {
      StepKeepsOrigin(s, actions[0], overlay, g);
      assert forall i :: 0 <= i < |actions[1..]| ==> actions[1..][i] == actions[i + 1];
      ReplacementIsClean(Step(s, actions[0]), overlay, g, actions[1..]);
    }
  }

  lemma ReplacedShowsItsOwn(before: seq<Action>, overlay: seq<Model>, after: seq<Action>)
    requires forall i :: 0 <= i < |after| ==> !after[i].Replace?
    ensures var s := Run(INITIAL, before);
            FromOr(Run(Step(s, Replace(overlay)), after), overlay, s.generation)
  {
    hide Run;
    var s := Run(INITIAL, before);
    ReplacementIsClean(Step(s, Replace(overlay)), overlay, s.generation, after);
  }

  /**
    When a fetched publication returns true, the entry it persisted is the one in the store, and the
    visible models are the baseline overridden by exactly that entry.
   */
  lemma PublishedIsPersisted(actions: seq<Action>, p: nat, baseline: seq<Model>, fetched: seq<Model>)
    requires var s := Run(INITIAL, actions);
             && p < |s.publications| && s.publications[p].phase == Stored
             && s.publications[p].persist == Write(fetched) && s.publications[p].update == Some(fetched)
    requires Step(Run(INITIAL, actions), Complete(p)).publications[p].phase == Settled(Published)
    ensures var r := Step(Run(INITIAL, actions), Complete(p));
            r.store == Some(fetched) && Visible(baseline, r.overlay) == Visible(baseline, fetched)
  {
    RunKeepsInv(INITIAL, actions);
  }

  /** A publication that writes is `Published` only by that last step. */
  lemma OnlyCompletePublishesWrites(s: Provider, action: Action, p: nat)
    requires p < |s.publications| && s.publications[p].persist != Keep
    requires s.publications[p].phase != Settled(Published)
    requires Step(s, action).publications[p].phase == Settled(Published)
    ensures action == Complete(p) && s.publications[p].phase == Stored
  {
  }
}
