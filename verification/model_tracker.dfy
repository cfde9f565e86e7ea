/** The shared-model reference ledger of packages/monaco-vue/src/model_tracker.ts.

    A module-wide map counts, per model id, how many trackers use that model;
    each tracker remembers the model objects it registered and, when its
    component goes away, releases them all and disposes the ones nobody else
    uses any more. */
module ModelTracking {

  /** A text model of the editor engine. The ledger only looks at its id;
      `disposeCalls` records how often the engine's `dispose` was called on it. */
  class Model {
    const id: string
    var disposeCalls: nat

    constructor (id: string)
      ensures this.id == id && disposeCalls == 0
    {
      this.id := id;
      disposeCalls := 0;
    }

    /** The engine's `dispose`, a foreign call: only the fact that it happened is kept. */
    method Dispose()
      modifies this
      ensures disposeCalls == old(disposeCalls) + 1
    {
      disposeCalls := disposeCalls + 1;
    }
  }

  /** What the module-wide `modelUsage` map holds: model id to number of users. */
  type Usage = map<string, int>

  /** The count the code reads for an id, `modelUsage.get(id) ?? 0`. */
  function CountOf(usage: Usage, id: string): int
  {
    if id in usage then usage[id] else 0
  }

  /** The ledger's invariant: no stored count is below 1. */
  predicate Positive(usage: Usage)
  {
    forall id :: id in usage ==> usage[id] >= 1
  }

  function Max0(x: int): nat
  {
    if x < 0 then 0 else x
  }

  /** The ledger after `registerModel` of a model with this id. */
  function Registered(usage: Usage, id: string): (r: Usage)
    ensures CountOf(r, id) == CountOf(usage, id) + 1
    ensures forall other :: other != id ==> CountOf(r, other) == CountOf(usage, other)
    ensures r.Keys == usage.Keys + {id}
    ensures Positive(usage) ==> Positive(r)
  {
    usage[id := CountOf(usage, id) + 1]
  }

  /** The ledger after `unregisterModel` of a model with this id. */
  function Unregistered(usage: Usage, id: string): (r: Usage)
    ensures CountOf(usage, id) > 1 ==> id in r && r[id] == CountOf(usage, id) - 1
    ensures CountOf(usage, id) <= 1 ==> id !in r
    ensures forall other :: other != id ==> CountOf(r, other) == CountOf(usage, other)
    ensures r.Keys <= usage.Keys
    ensures Positive(usage) ==> Positive(r)
  {
    var count := CountOf(usage, id);
    if count > 1 then usage[id := count - 1] else usage - {id}
  }

  /** `canDisposeModel`: the code compares the read count with 0. */
  function CanDispose(usage: Usage, id: string): (r: bool)
    ensures Positive(usage) ==> (r <==> id !in usage)
  {
    CountOf(usage, id) == 0
  }

  /** The module-wide ledger, shared by every tracker. */
  class Ledger {
    var usage: Usage

    ghost predicate Valid()
      reads this
    {
      Positive(usage)
    }

    constructor ()
      ensures Valid() && usage == map[]
    {
      usage := map[];
    }

    /** `registerModel`: one more user of the model's id. */
    method Register(model: Model)
      requires Valid()
      modifies this
      ensures Valid()
      ensures usage == Registered(old(usage), model.id)
    {
      var count := if model.id in usage then usage[model.id] else 0;
      usage := usage[model.id := count + 1];
    }

    /** `unregisterModel`: one user fewer; the entry goes when no user is left. */
    method Unregister(model: Model)
      requires Valid()
      modifies this
      ensures Valid()
      ensures usage == Unregistered(old(usage), model.id)
    {
      var count := if model.id in usage then usage[model.id] else 0;
      if count > 1 {
        usage := usage[model.id := count - 1];
        return;
      }
      usage := usage - {model.id};
    }

    /** `canDisposeModel`: true exactly when the model's id has no entry. */
    function CanDisposeModel(model: Model): (r: bool)
      reads this
      requires Valid()
      ensures r <==> model.id !in usage
    {
      CanDispose(usage, model.id)
    }
  }

  /** No element twice: a `Set` seen in its iteration (insertion) order. */
  predicate Distinct<T(==)>(s: seq<T>)
  {
    forall i, j :: 0 <= i < j < |s| ==> s[i] != s[j]
  }

  /** No two models of the sequence share an id. */
  predicate DistinctIds(models: seq<Model>)
  {
    forall i, j :: 0 <= i < j < |models| ==> models[i].id != models[j].id
  }

  /** A ledger together with one tracker's set of models. */
  datatype Tracked = Tracked(usage: Usage, used: seq<Model>)

  /** `ModelTracker.add`: a model the tracker already holds changes nothing;
      a new one joins the set and is registered. */
  function Added(usage: Usage, used: seq<Model>, model: Model): (r: Tracked)
    ensures model in r.used && (set x | x in r.used) == (set x | x in used) + {model}
    ensures Distinct(used) ==> Distinct(r.used)
    ensures CountOf(r.usage, model.id) == CountOf(usage, model.id) + (if model in used then 0 else 1)
    ensures forall id :: id != model.id ==> CountOf(r.usage, id) == CountOf(usage, id)
    ensures Positive(usage) ==> Positive(r.usage)
  {
    if model in used then Tracked(usage, used)
    else Tracked(Registered(usage, model.id), used + [model])
  }

  /** The ledger and the models disposed, after a release loop. */
  datatype Released = Released(usage: Usage, disposed: seq<Model>)

  /** `disposeModels` over the models in iteration order: each one is
      unregistered, then disposed when its entry is gone. */
  function Release(usage: Usage, models: seq<Model>): (r: Released)
    ensures forall m :: m in r.disposed ==> m in models
    ensures |r.disposed| <= |models|
    ensures r.usage.Keys <= usage.Keys
  {
    if models == [] then Released(usage, [])
    else
      var prev := Release(usage, models[..|models| - 1]);
      var model := models[|models| - 1];
      var after := Unregistered(prev.usage, model.id);
      Released(after, if CanDispose(after, model.id) then prev.disposed + [model] else prev.disposed)
  }

  /** A tracker: the models one component registered with the shared ledger. */
  class ModelTracker {
    const ledger: Ledger
    var usedModels: seq<Model>

    ghost predicate Valid()
      reads this, ledger
    {
      ledger.Valid() && Distinct(usedModels)
    }

    constructor (ledger: Ledger)
      requires ledger.Valid()
      ensures Valid() && this.ledger == ledger && usedModels == []
    {
      this.ledger := ledger;
      usedModels := [];
    }

    /** `add`: idempotent per tracker. */
    method Add(model: Model)
      requires Valid()
      modifies this, ledger
      ensures Valid()
      ensures Tracked(ledger.usage, usedModels) == Added(old(ledger.usage), old(usedModels), model)
    {
      if model in usedModels {
        return;
      }
      usedModels := usedModels + [model];
      ledger.Register(model);
    }

    /** `disposeModels`: every model of the set is released once and disposed
        when its release removed the last use. The set itself is kept. */
    method DisposeModels()
      requires Valid()
      modifies ledger, usedModels
      ensures Valid()
      ensures ledger.usage == Release(old(ledger.usage), usedModels).usage
      ensures forall m :: m in usedModels ==>
        m.disposeCalls == old(m.disposeCalls) + (if m in Release(old(ledger.usage), usedModels).disposed then 1 else 0)
    {
      ghost var disposed: seq<Model> := [];
      var i := 0;
      while i < |usedModels|
        invariant 0 <= i <= |usedModels|
        invariant ledger.Valid()
        invariant Released(ledger.usage, disposed) == Release(old(ledger.usage), usedModels[..i])
        invariant forall m :: m in disposed ==> m in usedModels[..i]
        invariant forall m :: m in usedModels ==> m.disposeCalls == old(m.disposeCalls) + (if m in disposed then 1 else 0)
      {
        var model := usedModels[i];
        assert usedModels[..i + 1][..i] == usedModels[..i];
        assert model !in usedModels[..i];
        ledger.Unregister(model);
        if ledger.CanDisposeModel(model) {
          model.Dispose();
          disposed := disposed + [model];
        }
        i := i + 1;
      }
      assert usedModels[..i] == usedModels;
    }
  }

  // ---------------------------------------------------------------------------
  // What one release does to the ledger

  /** The number of models in the sequence with this id. */
  function Occurrences(models: seq<Model>, id: string): nat
  {
    if models == [] then 0
    else Occurrences(models[..|models| - 1], id) + (if models[|models| - 1].id == id then 1 else 0)
  }

  lemma {:induction false} OccurrencesAppend(models: seq<Model>, model: Model, id: string)
    ensures Occurrences(models + [model], id) == Occurrences(models, id) + (if model.id == id then 1 else 0)
  {
    assert (models + [model])[..|models|] == models;
  }

  /** A model of a sequence with distinct ids accounts for one occurrence of its id. */
  lemma {:induction false} OccurrencesOfDistinct(models: seq<Model>, id: string)
    requires DistinctIds(models)
    ensures Occurrences(models, id) == if exists x :: x in models && x.id == id then 1 else 0
  {
    if models != [] {
      var n := |models| - 1;
      var prefix := models[..n];
      assert models == prefix + [models[n]];
      OccurrencesOfDistinct(prefix, id);
      if models[n].id == id {
        forall x | x in prefix ensures x.id != id {
          var k :| 0 <= k < n && prefix[k] == x;
        }
      }
    }
  }

  /** Releasing a tracker's models lowers each id's count by its number of
      occurrences, never below zero, and keeps every stored count positive. */
  lemma {:induction false} ReleaseCounts(usage: Usage, models: seq<Model>)
    requires Positive(usage)
    ensures Positive(Release(usage, models).usage)
    ensures forall id :: CountOf(Release(usage, models).usage, id) == Max0(CountOf(usage, id) - Occurrences(models, id))
  {
    if models != [] {
      var n := |models| - 1;
      ReleaseCounts(usage, models[..n]);
      var prev := Release(usage, models[..n]);
      forall id ensures CountOf(Release(usage, models).usage, id) == Max0(CountOf(usage, id) - Occurrences(models, id)) {
        assert models == models[..n] + [models[n]];
        OccurrencesAppend(models[..n], models[n], id);
      }
    }
  }

  /** With distinct ids, a release disposes exactly the models whose count
      was at most 1, each once, and nothing outside the tracker's set. */
  lemma {:induction false} ReleaseDisposes(usage: Usage, models: seq<Model>)
    requires Positive(usage) && DistinctIds(models)
    ensures forall m :: m in Release(usage, models).disposed ==> m in models
    ensures forall m :: m in models ==> (m in Release(usage, models).disposed <==> CountOf(usage, m.id) <= 1)
    ensures Distinct(Release(usage, models).disposed)
  {
    if models != [] {
      var n := |models| - 1;
      var prefix := models[..n];
      var last := models[n];
      assert models == prefix + [last];
      ReleaseDisposes(usage, prefix);
      ReleaseCounts(usage, prefix);
      forall x | x in prefix ensures x.id != last.id {
        var k :| 0 <= k < n && prefix[k] == x;
      }
      OccurrencesOfDistinct(prefix, last.id);
      assert CountOf(Release(usage, prefix).usage, last.id) == CountOf(usage, last.id);
    }
  }

  // ---------------------------------------------------------------------------
  // Several trackers sharing one ledger

  /** The number of (tracker, model) pairs with this id over all trackers. */
  function Uses(trackers: seq<seq<Model>>, id: string): nat
  {
    if trackers == [] then 0 else Occurrences(trackers[0], id) + Uses(trackers[1..], id)
  }

  /** The number of trackers holding some model with this id. */
  function Holders(trackers: seq<seq<Model>>, id: string): nat
  {
    if trackers == [] then 0
    else (if exists x :: x in trackers[0] && x.id == id then 1 else 0) + Holders(trackers[1..], id)
  }

  /** The ledger counts, for every id, the registrations the trackers hold. */
  ghost predicate Accounted(usage: Usage, trackers: seq<seq<Model>>)
  {
    forall id :: CountOf(usage, id) == Uses(trackers, id)
  }

  lemma {:induction false} UsesUpdate(trackers: seq<seq<Model>>, t: nat, used: seq<Model>, id: string)
    requires t < |trackers|
    ensures Uses(trackers[t := used], id) == Uses(trackers, id) - Occurrences(trackers[t], id) + Occurrences(used, id)
  {
    if t > 0 {
      UsesUpdate(trackers[1..], t - 1, used, id);
      assert trackers[t := used][1..] == trackers[1..][t - 1 := used];
    }
  }

  /** `add` on any one tracker keeps the ledger in step with the trackers' sets. */
  lemma {:induction false} AddKeepsAccounted(usage: Usage, trackers: seq<seq<Model>>, t: nat, model: Model)
    requires t < |trackers| && Accounted(usage, trackers)
    ensures Accounted(Added(usage, trackers[t], model).usage, trackers[t := Added(usage, trackers[t], model).used])
  {
    var a := Added(usage, trackers[t], model);
    forall id ensures CountOf(a.usage, id) == Uses(trackers[t := a.used], id) {
      UsesUpdate(trackers, t, a.used, id);
      if model !in trackers[t] {
        OccurrencesAppend(trackers[t], model, id);
      }
    }
  }

  /** When each tracker holds at most one model per id, the count of an id in
      an accounted ledger is the number of trackers using it. */
  lemma {:induction false} CountIsHolders(usage: Usage, trackers: seq<seq<Model>>, id: string)
    requires Accounted(usage, trackers)
    requires forall i :: 0 <= i < |trackers| ==> DistinctIds(trackers[i])
    ensures CountOf(usage, id) == Holders(trackers, id)
  {
    UsesAreHolders(trackers, id);
  }

  lemma {:induction false} UsesAreHolders(trackers: seq<seq<Model>>, id: string)
    requires forall i :: 0 <= i < |trackers| ==> DistinctIds(trackers[i])
    ensures Uses(trackers, id) == Holders(trackers, id)
  {
    if trackers != [] {
      OccurrencesOfDistinct(trackers[0], id);
      UsesAreHolders(trackers[1..], id);
    }
  }

  lemma {:induction false} NoHolders(trackers: seq<seq<Model>>, m: Model)
    requires forall i, x :: 0 <= i < |trackers| && x in trackers[i] && x.id == m.id ==> x == m
    ensures Holders(trackers, m.id) == 0 <==> forall k :: 0 <= k < |trackers| ==> m !in trackers[k]
  {
    if trackers != [] {
      NoHolders(trackers[1..], m);
      if m in trackers[0] {
        assert exists x :: x in trackers[0] && x.id == m.id;
      }
      forall k | 1 <= k < |trackers| ensures trackers[k] == trackers[1..][k - 1] { }
    }
  }

  /** The ledger after several trackers release in turn, with what each disposed. */
  datatype Run = Run(usage: Usage, disposed: seq<seq<Model>>)

  function ReleaseInOrder(usage: Usage, trackers: seq<seq<Model>>): (r: Run)
    ensures |r.disposed| == |trackers|
    decreases |trackers|
  {
    if trackers == [] then Run(usage, [])
    else
      var first := Release(usage, trackers[0]);
      var rest := ReleaseInOrder(first.usage, trackers[1..]);
      Run(rest.usage, [first.disposed] + rest.disposed)
  }

  /** Trackers that share a model release in any order: the model is disposed
      by the release of the last tracker holding it, and by no other. */
  lemma {:induction false} LastReleaseDisposes(usage: Usage, trackers: seq<seq<Model>>, m: Model)
    requires Positive(usage)
    requires forall i :: 0 <= i < |trackers| ==> DistinctIds(trackers[i])
    requires forall i, x :: 0 <= i < |trackers| && x in trackers[i] && x.id == m.id ==> x == m
    requires CountOf(usage, m.id) == Holders(trackers, m.id)
    ensures CountOf(ReleaseInOrder(usage, trackers).usage, m.id) == 0
    ensures forall j :: 0 <= j < |trackers| ==>
      (m in ReleaseInOrder(usage, trackers).disposed[j] <==>
       m in trackers[j] && forall k :: j < k < |trackers| ==> m !in trackers[k])
    decreases |trackers|
  {
    if trackers != [] {
      var first := Release(usage, trackers[0]);
      var rest := trackers[1..];
      ReleaseCounts(usage, trackers[0]);
      ReleaseDisposes(usage, trackers[0]);
      OccurrencesOfDistinct(trackers[0], m.id);
      if m in trackers[0] {
        assert exists x :: x in trackers[0] && x.id == m.id;
      }
      assert CountOf(first.usage, m.id) == Holders(rest, m.id);
      LastReleaseDisposes(first.usage, rest, m);
      NoHolders(rest, m);
      var run := ReleaseInOrder(usage, trackers);
      forall j | 1 <= j < |trackers|
        ensures run.disposed[j] == ReleaseInOrder(first.usage, rest).disposed[j - 1]
        ensures trackers[j] == rest[j - 1]
      { }
      assert m in first.disposed ==> m in trackers[0];
    }
  }

  /** A tracker that releases a second time takes a use away from another
      tracker: with two holders of one model, releasing the first tracker
      twice disposes the model while the second still holds it, and the
      second tracker's own release disposes it again. */
  lemma RepeatedReleaseDisposesSharedModel(m: Model)
    ensures ReleaseInOrder(map[m.id := 2], [[m], [m], [m]]).disposed == [[], [m], [m]]
  {
    var one: seq<Model> := [m];
    ReleaseOne(map[m.id := 2], m);
    ReleaseOne(map[m.id := 1], m);
    ReleaseOne(map[], m);
    assert Unregistered(map[m.id := 2], m.id) == map[m.id := 1];
    assert Unregistered(map[m.id := 1], m.id) == map[] && Unregistered(map[], m.id) == map[];
    var three: seq<seq<Model>> := [one, one, one];
    assert three[1..] == [one, one] && three[1..][1..] == [one];
    assert ReleaseInOrder(map[], [one]).disposed == [[m]];
    assert ReleaseInOrder(map[m.id := 1], [one, one]).disposed == [[m], [m]];
    assert ReleaseInOrder(map[m.id := 2], three).disposed == [[]] + ReleaseInOrder(map[m.id := 1], [one, one]).disposed;
  }

  /** The release of a one-model set. */
  lemma ReleaseOne(usage: Usage, m: Model)
    ensures Release(usage, [m]).usage == Unregistered(usage, m.id)
    ensures Release(usage, [m]).disposed == if CanDispose(Unregistered(usage, m.id), m.id) then [m] else []
  {
    assert [m][..0] == [];
  }

  /** Two components share one document: the first release keeps it alive,
      the second disposes it, once. */
  method SharedDocumentScenario() returns (callsAfterFirst: nat, callsAfterSecond: nat)
    ensures callsAfterFirst == 0 && callsAfterSecond == 1
  {
    var ledger := new Ledger();
    var doc := new Model("doc1");
    var a := new ModelTracker(ledger);
    var b := new ModelTracker(ledger);
    a.Add(doc);
    a.Add(doc);
    b.Add(doc);
    assert ledger.usage == map["doc1" := 2];
    assert [doc][..0] == [];
    a.DisposeModels();
    assert ledger.usage == map["doc1" := 1];
    callsAfterFirst := doc.disposeCalls;
    b.DisposeModels();
    assert ledger.usage == map[];
    callsAfterSecond := doc.disposeCalls;
  }
}
