/**
  The models registry as an object with its three maps keyed by provider id. Every method advances the
  named provider by one action of `ModelRefresh` and leaves every other provider alone.
 */
module ModelRegistry {
  import opened Wrappers
  import opened ModelOverlay
  import opened ModelRefresh

  function GetOr<T>(m: map<string, T>, id: string, default: T): T {
    if id in m then m[id] else default
  }

  function Get<T>(m: map<string, T>, id: string): Option<T> {
    if id in m then Some(m[id]) else None
  }

  class Models {
    var providers: set<string>
    var refreshGenerations: map<string, nat>
    var refreshControllers: map<string, nat>
    var publicationChains: map<string, nat>
    var refreshes: map<string, map<nat, Refresh>>
    var publications: map<string, seq<Publication>>
    var store: map<string, seq<Model>>
    var overlays: map<string, seq<Model>>
    ghost var writes: map<string, seq<nat>>
    ghost var updates: map<string, seq<nat>>

    constructor ()
      ensures forall id :: View(id) == INITIAL
    {
      providers := {};
      refreshGenerations, refreshControllers, publicationChains := map[], map[], map[];
      refreshes, publications, store, overlays := map[], map[], map[], map[];
      writes, updates := map[], map[];
    }

    /** The refresh machine of one provider. */
    ghost function View(id: string): Provider
      reads this
    {
      Provider(GetOr(refreshGenerations, id, 0), Get(refreshControllers, id), GetOr(refreshes, id, map[]),
               GetOr(publications, id, []), Get(publicationChains, id), Get(store, id), GetOr(overlays, id, []),
               GetOr(writes, id, []), GetOr(updates, id, []))
    }

    method SupersedeProviderRefresh(id: string) returns (generation: nat)
      modifies this`refreshGenerations, this`refreshControllers, this`refreshes
      ensures View(id) == Supersede(old(View(id))) && generation == View(id).generation
      ensures forall k :: k != id ==> View(k) == old(View(k))
    {
      generation := GetOr(refreshGenerations, id, 0) + 1;
      refreshGenerations := refreshGenerations[id := generation];
      if id in refreshControllers {
        var previous := refreshControllers[id];
        refreshControllers := refreshControllers - {id};
        AbortController(id, previous);
      }
    }

    method AbortController(id: string, refresh: nat)
      modifies this`refreshes
      ensures var before := old(GetOr(refreshes, id, map[]));
              GetOr(refreshes, id, map[])
              == if refresh in before then before[refresh := before[refresh].(controllerAborted := true)] else before
      ensures forall k :: k != id ==> GetOr(refreshes, k, map[]) == old(GetOr(refreshes, k, map[]))
    {
      var mine := GetOr(refreshes, id, map[]);
      if refresh in mine {
        refreshes := refreshes[id := mine[refresh := mine[refresh].(controllerAborted := true)]];
      }
    }

    /** `setProvider` with an object that holds the given dynamic models, none if it is new. */
    method SetProvider(id: string, dynamicModels: seq<Model>)
      modifies this`providers, this`refreshGenerations, this`refreshControllers, this`refreshes, this`overlays
      ensures View(id) == Step(old(View(id)), Replace(dynamicModels)) && providers == old(providers) + {id}
      ensures forall k :: k != id ==> View(k) == old(View(k))
    {
      var _ := SupersedeProviderRefresh(id);
      providers := providers + {id};
      overlays := overlays[id := dynamicModels];
    }

    method DeleteProvider(id: string)
      modifies this`providers, this`refreshGenerations, this`refreshControllers, this`refreshes, this`overlays
      ensures View(id) == Step(old(View(id)), Replace([])) && providers == old(providers) - {id}
      ensures forall k :: k != id ==> View(k) == old(View(k))
    {
      var _ := SupersedeProviderRefresh(id);
      providers := providers - {id};
      overlays := overlays - {id};
    }

    method SupersedeAll(ids: set<string>)
      modifies this`refreshGenerations, this`refreshControllers, this`refreshes
      ensures forall k :: View(k) == if k in ids then Supersede(old(View(k))) else old(View(k))
    {
      hide Supersede;
      var left := ids;
      while left != {}
        invariant left <= ids
        invariant forall k :: View(k) == if k in ids && k !in left then Supersede(old(View(k))) else old(View(k))
        decreases |left|
      {
        var id :| id in left;
        var _ := SupersedeProviderRefresh(id);
        left := left - {id};
      }
    }

    /** Supersede every known provider and every provider with a registered refresh, each once. */
    method ClearProviders()
      modifies this`providers, this`refreshGenerations, this`refreshControllers, this`refreshes, this`overlays
      ensures providers == {}
      ensures forall k :: View(k) == if k in old(providers) || k in old(refreshControllers)
                                     then Step(old(View(k)), Replace([])) else old(View(k))
    {
      hide Supersede;
      var ids := providers + refreshControllers.Keys;
      SupersedeAll(ids);
      providers := {};
      overlays := overlays - ids;
    }

    method BeginProviderRefresh(id: string) returns (generation: nat)
      modifies this`refreshGenerations, this`refreshControllers, this`refreshes
      ensures View(id) == Step(old(View(id)), Begin) && generation == View(id).generation
      ensures forall k :: k != id ==> View(k) == old(View(k))
    {
      generation := SupersedeProviderRefresh(id);
      var mine := GetOr(refreshes, id, map[]);
      refreshes := refreshes[id := mine[generation := Refresh(false, false, false)]];
      refreshControllers := refreshControllers[id := generation];
    }

    /** The `finally` of one refresh: drop the controller only if it is still the registered one. */
    method FinishRefresh(id: string, generation: nat)
      requires generation in GetOr(refreshes, id, map[])
      modifies this`refreshControllers, this`refreshes
      ensures View(id) == Step(old(View(id)), Finish(generation))
      ensures forall k :: k != id ==> View(k) == old(View(k))
    {
      var mine := GetOr(refreshes, id, map[]);
      refreshes := refreshes[id := mine[generation := mine[generation].(finished := true)]];
      if id in refreshControllers && refreshControllers[id] == generation {
        refreshControllers := refreshControllers - {id};
      }
    }

    /** The synchronous part of `publishProviderModels`: append to the chain. */
    method PublishProviderModels(id: string, generation: nat, persist: Persist, update: Option<seq<Model>>)
        returns (p: nat)
      requires generation in GetOr(refreshes, id, map[])
      modifies this`publications, this`publicationChains
      ensures View(id) == Step(old(View(id)), Publish(generation, persist, update))
      ensures p == |old(View(id)).publications|
      ensures forall k :: k != id ==> View(k) == old(View(k))
    {
      var previous := Get(publicationChains, id);
      var mine := GetOr(publications, id, []);
      p := |mine|;
      publications := publications[id := mine + [Publication(generation, previous, persist, update, Queued)]];
      publicationChains := publicationChains[id := p];
    }

    method IsStale(id: string, generation: nat) returns (stale: bool)
      ensures stale == Stale(View(id), generation)
    {
      var mine := GetOr(refreshes, id, map[]);
      var aborted := generation in mine && (mine[generation].controllerAborted || mine[generation].callerAborted);
      stale := aborted || GetOr(refreshGenerations, id, 0) != generation;
    }

    method SetPublicationPhase(id: string, p: nat, phase: Phase)
      requires p < |GetOr(publications, id, [])|
      modifies this`publications
      ensures View(id) == SetPhase(old(View(id)), p, phase)
      ensures forall k :: k != id ==> GetOr(publications, k, []) == old(GetOr(publications, k, []))
      ensures forall k :: k != id ==> View(k) == old(View(k))
    {
      var mine := GetOr(publications, id, []);
      publications := publications[id := mine[p := mine[p].(phase := phase)]];
    }

    /** From the end of the wait to the store operation, or to the end if there is none. */
    method ProceedPublication(id: string, p: nat)
      requires MayProceed(View(id), p)
      modifies this`publications, this`overlays, this`updates
      ensures View(id) == Step(old(View(id)), Proceed(p))
      ensures forall k :: k != id ==> View(k) == old(View(k))
    {
      var pub := GetOr(publications, id, [])[p];
      var stale := IsStale(id, pub.generation);
      if stale {
        SetPublicationPhase(id, p, Settled(Refused));
      } else if pub.persist == Keep {
        ConcludePublication(id, p);
      } else {
        SetPublicationPhase(id, p, Writing);
      }
    }

    /** The second check and the update. */
    method ConcludePublication(id: string, p: nat)
      requires p < |GetOr(publications, id, [])|
      modifies this`publications, this`overlays, this`updates
      ensures View(id) == Conclude(old(View(id)), p)
      ensures forall k :: k != id ==> View(k) == old(View(k))
    {
      var pub := GetOr(publications, id, [])[p];
      var stale := IsStale(id, pub.generation);
      if stale {
        SetPublicationPhase(id, p, Settled(Refused));
        return;
      }
      SetPublicationPhase(id, p, Settled(Published));
      if pub.update.Some? {
        overlays := overlays[id := pub.update.value];
        updates := updates[id := GetOr(updates, id, []) + [pub.generation]];
        forall k | k != id ensures View(k) == old(View(k)) {
          assert GetOr(publications, k, []) == old(View(k)).publications;
          assert GetOr(overlays, k, []) == old(View(k)).overlay && GetOr(updates, k, []) == old(View(k)).updates;
        }
      }
    }

    /** The store operation of a publication takes effect and succeeds. */
    method StoreSucceeds(id: string, p: nat)
      requires p < |GetOr(publications, id, [])| && GetOr(publications, id, [])[p].phase == Writing
      modifies this`publications, this`store, this`writes
      ensures View(id) == Step(old(View(id)), StoreReturns(p, true, true))
      ensures forall k :: k != id ==> View(k) == old(View(k))
    {
      var pub := GetOr(publications, id, [])[p];
      SetPublicationPhase(id, p, Stored);
      TakeEffect(id, pub);
    }

    method TakeEffect(id: string, pub: Publication)
      modifies this`store, this`writes
      ensures View(id) == old(View(id)).(store := Written(pub.persist), writes := old(View(id)).writes
          + [pub.generation])
      ensures forall k :: k != id ==> View(k) == old(View(k))
    {
      if pub.persist.Write? {
        store := store[id := pub.persist.models];
      } else {
        store := store - {id};
      }
      writes := writes[id := GetOr(writes, id, []) + [pub.generation]];
    }

    /** The store operation of a publication fails; it may have taken effect nevertheless. */
    method StoreFails(id: string, p: nat, effect: bool)
      requires p < |GetOr(publications, id, [])| && GetOr(publications, id, [])[p].phase == Writing
      modifies this`publications, this`store, this`writes
      ensures View(id) == Step(old(View(id)), StoreReturns(p, false, effect))
      ensures forall k :: k != id ==> View(k) == old(View(k))
    {
      var pub := GetOr(publications, id, [])[p];
      SetPublicationPhase(id, p, Settled(StoreFailed));
      if effect {
        TakeEffect(id, pub);
      }
    }

    /** Drop a settled tail of the chain. */
    method ForgetChain(id: string, p: nat)
      requires p < |GetOr(publications, id, [])| && GetOr(publications, id, [])[p].phase.Settled?
      modifies this`publicationChains
      ensures View(id) == Step(old(View(id)), Forget(p))
      ensures forall k :: k != id ==> View(k) == old(View(k))
    {
      if id in publicationChains && publicationChains[id] == p {
        publicationChains := publicationChains - {id};
      }
    }

    /** `getModel` of a provider with the given baseline. */
    method GetModel(id: string, baseline: seq<Model>, model: string) returns (found: Option<Model>)
      ensures found == if id in providers then Find(Visible(baseline, View(id).overlay), model) else None
    {
      if id !in providers {
        return None;
      }
      var visible := CurrentModels(baseline, GetOr(overlays, id, []));
      found := Find(visible, model);
    }
  }
}
