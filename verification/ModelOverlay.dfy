/** A provider's visible models: a static baseline overridden by id with a dynamic overlay. */
module ModelOverlay {
  import opened Wrappers

  datatype Model = Model(id: string, provider: string, data: string)

  /** The first index with the given id, or the length. */
  function FindIndex(models: seq<Model>, id: string): (index: nat)
    ensures index <= |models|
    ensures index < |models| ==> models[index].id == id
    ensures forall i :: 0 <= i < index ==> models[i].id != id
  {
    if models == [] || models[0].id == id then 0 else 1 + FindIndex(models[1..], id)
  }

  function Override(merged: seq<Model>, model: Model): seq<Model> {
    var index := FindIndex(merged, model.id);
    if index < |merged| then merged[index := model] else merged + [model]
  }

  function Visible(baseline: seq<Model>, overlay: seq<Model>): seq<Model> {
    if overlay == [] then baseline
    else Override(Visible(baseline, overlay[..|overlay| - 1]), overlay[|overlay| - 1])
  }

  /** The loop of `currentModels`. */
  method CurrentModels(baseline: seq<Model>, overlay: seq<Model>) returns (merged: seq<Model>)
    ensures merged == Visible(baseline, overlay)
  {
    merged := baseline;
    for i := 0 to |overlay|
      invariant merged == Visible(baseline, overlay[..i])
    {
      var index := 0;
      while index < |merged| && merged[index].id != overlay[i].id
        invariant 0 <= index <= |merged|
        invariant forall k :: 0 <= k < index ==> merged[k].id != overlay[i].id
      {
        index := index + 1;
      }
      assert index == FindIndex(merged, overlay[i].id);
      if index < |merged| {
        merged := merged[index := overlay[i]];
      } else {
        merged := merged + [overlay[i]];
      }
      assert overlay[..i + 1][..i] == overlay[..i];
    }
    assert overlay[..|overlay|] == overlay;
  }

  /** `getModel`: the first visible model with the id. */
  function Find(models: seq<Model>, id: string): Option<Model> {
    var index := FindIndex(models, id);
    if index < |models| then Some(models[index]) else None
  }

  function FindLast(models: seq<Model>, id: string): Option<Model> {
    if models == [] then None
    else if models[|models| - 1].id == id then Some(models[|models| - 1])
    else FindLast(models[..|models| - 1], id)
  }

  lemma FindIndexIs(models: seq<Model>, id: string, index: nat)
    requires index < |models| && models[index].id == id
    requires forall i :: 0 <= i < index ==> models[i].id != id
    ensures FindIndex(models, id) == index
  {
  }

  /** Overriding changes the lookup of its own id only. */
  lemma OverrideFind(merged: seq<Model>, model: Model, id: string)
    ensures Find(Override(merged, model), id) == if id == model.id then Some(model) else Find(merged, id)
  {
    var r := Override(merged, model);
    var index := FindIndex(merged, model.id);
    if id == model.id {
      FindIndexIs(r, id, index);
    } else {
      var at := FindIndex(merged, id);
      if at < |merged| {
        FindIndexIs(r, id, at);
      } else {
        forall k | 0 <= k < |r| ensures r[k].id != id {
        }
      }
    }
  }

  /** Lookup by id finds the last overlay entry, else the first baseline entry. */
  lemma {:induction false} LookupMeaning(baseline: seq<Model>, overlay: seq<Model>, id: string)
    ensures Find(Visible(baseline, overlay), id)
         == if FindLast(overlay, id).Some? then FindLast(overlay, id) else Find(baseline, id)
  {
    if overlay != [] {
      var n := |overlay| - 1;
      LookupMeaning(baseline, overlay[..n], id);
      OverrideFind(Visible(baseline, overlay[..n]), overlay[n], id);
    }
  }

  /** Merging keeps the baseline's positions and ids, and adds every new overlay id once, behind them. */
  lemma {:induction false} PositionsKept(baseline: seq<Model>, overlay: seq<Model>)
    ensures var merged := Visible(baseline, overlay);
            && |merged| >= |baseline|
            && (forall i :: 0 <= i < |baseline| ==> merged[i].id == baseline[i].id)
            && (forall i, j :: |baseline| <= i < |merged| && 0 <= j < i ==> merged[j].id != merged[i].id)
            && (forall i :: |baseline| <= i < |merged| ==> merged[i] in overlay)
  {
    if overlay != [] {
      var n := |overlay| - 1;
      PositionsKept(baseline, overlay[..n]);
      var before := Visible(baseline, overlay[..n]);
      var index := FindIndex(before, overlay[n].id);
      assert overlay == overlay[..n] + [overlay[n]];
    }
  }

  // ---- Restoring a persisted entry ---------------------------------------------------

  function Restored(models: seq<Model>, provider: string): seq<Model> {
    if models == [] then []
    else (if models[0].provider == provider then [models[0]] else []) + Restored(models[1..], provider)
  }

  lemma {:induction false} RestoredLength(models: seq<Model>, provider: string)
    ensures |Restored(models, provider)| <= |models|
  {
    if models != [] { RestoredLength(models[1..], provider); }
  }

  /** A fresh provider restores exactly the persisted overlay if and only if every entry carries its id. */
  lemma {:induction false} RestoreIsFaithfulIff(models: seq<Model>, provider: string)
    ensures Restored(models, provider) == models <==> forall i :: 0 <= i < |models| ==> models[i].provider == provider
  {
    if models != [] {
      RestoreIsFaithfulIff(models[1..], provider);
      RestoredLength(models[1..], provider);
      assert forall i :: 0 <= i < |models| - 1 ==> models[1..][i] == models[i + 1];
      if models[0].provider == provider {
        assert Restored(models, provider)[1..] == Restored(models[1..], provider);
        if forall i :: 0 <= i < |models| - 1 ==> models[1..][i].provider == provider {
          forall i | 0 <= i < |models| ensures models[i].provider == provider {
            if i > 0 { assert models[i] == models[1..][i - 1]; }
          }
        }
      }
    }
  }

  /** Then it shows the list that was visible when the entry was fetched. */
  lemma RestoreShowsSameList(baseline: seq<Model>, fetched: seq<Model>, provider: string)
    requires forall i :: 0 <= i < |fetched| ==> fetched[i].provider == provider
    ensures Visible(baseline, Restored(fetched, provider)) == Visible(baseline, fetched)
  {
    RestoreIsFaithfulIff(fetched, provider);
  }
}
