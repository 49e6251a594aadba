// pkg/generated/informers/externalversions/factory.go: the factory as an object.
// Each method is what one caller does while it holds the lock.
module Informers {
  import IP = InformerProtocol

  // A cache.SharedIndexInformer, as far as the factory uses it.
  class Informer {
    const resync: nat
    var runs: nat

    constructor (resync: nat)
      ensures this.resync == resync && runs == 0
    {
      this.resync := resync;
      runs := 0;
    }

    method Run()
      modifies this
      ensures runs == old(runs) + 1
    {
      runs := runs + 1;
    }
  }

  datatype FactoryOption =
    | WithCustomResyncConfig(config: map<string, nat>)
    | WithNamespace(namespace: string)

  // The resync periods after all options are applied, later ones winning.
  function CustomResync(options: seq<FactoryOption>): map<string, nat> {
    if |options| == 0 then map[]
    else
      var before := CustomResync(options[..|options| - 1]);
      match options[|options| - 1]
      case WithCustomResyncConfig(config) => before + config
      case WithNamespace(_) => before
  }

  class SharedInformerFactory {
    const defaultResync: nat
    const customResync: map<string, nat>
    const namespace: string
    var informers: map<string, Informer>
    var startedInformers: map<string, bool>
    ghost var ran: multiset<Informer>
    ghost var answers: seq<(string, Informer)>

    ghost function Abs(): IP.State<Informer>
      reads this
    {
      IP.State(informers, startedInformers.Keys, ran, answers, map[])
    }

    ghost predicate Valid()
      reads this, informers.Values
    {
      && IP.Inv(Abs())
      && (forall k :: k in startedInformers ==> startedInformers[k])
      && forall k :: k in informers ==> informers[k].runs == ran[informers[k]]
    }

    constructor (defaultResync: nat, options: seq<FactoryOption>)
      ensures Valid() && Abs() == IP.Init<Informer>()
      ensures this.defaultResync == defaultResync && customResync == CustomResync(options)
    {
      var resyncs: map<string, nat>, ns := map[], "";
      var i := 0;
      assert options[..0] == [];
      while i < |options|
        invariant 0 <= i <= |options|
        invariant resyncs == CustomResync(options[..i])
      {
        match options[i] {
          case WithCustomResyncConfig(config) => resyncs := resyncs + config;
          case WithNamespace(namespace) => ns := namespace;
        }
        assert options[..i + 1][..i] == options[..i];
        i := i + 1;
      }
      assert options[..i] == options;
      this.defaultResync, customResync, namespace := defaultResync, resyncs, ns;
      informers, startedInformers := map[], map[];
      ran, answers := multiset{}, [];
    }

    method InformerFor(kind: string) returns (informer: Informer)
      requires Valid()
      modifies this
      ensures Valid()
      ensures Abs() == IP.Get(old(Abs()), kind, informer)
      ensures kind in informers && informers[kind] == informer
      ensures kind !in old(informers) ==>
        fresh(informer) && informer.resync == if kind in customResync then customResync[kind] else defaultResync
    {
      if kind in informers {
        informer := informers[kind];
        IP.GetKeeps(Abs(), kind, informer);
      } else {
        var resyncPeriod := if kind in customResync then customResync[kind] else defaultResync;
        informer := new Informer(resyncPeriod);
        assert ran[informer] == 0 && informer !in informers.Values;
        IP.GetKeeps(Abs(), kind, informer);
        informers := informers[kind := informer];
      }
      answers := answers + [(kind, informer)];
    }

    method Start()
      requires Valid()
      modifies this, informers.Values
      ensures Valid()
      ensures informers == old(informers)
      ensures Abs() == IP.StartAll(old(Abs()))
    {
      ghost var before := Abs();
      RunUnstarted();
      ran := IP.StartAll(before).ran;
      assert Abs() == IP.StartAll(before);
      IP.StartKeeps(before);
      IP.StartRunsEach(before);
    }

    // The loop of Start.
    method RunUnstarted()
      requires forall k1, k2 :: k1 in informers && k2 in informers && informers[k1] == informers[k2] ==> k1 == k2
      requires forall k :: k in startedInformers ==> startedInformers[k]
      requires forall k :: k in informers ==> informers[k].runs == if k in startedInformers then 1 else 0
      modifies this`startedInformers, informers.Values
      ensures forall k :: k in startedInformers ==> startedInformers[k]
      ensures forall k :: k in informers ==> informers[k].runs == 1
      ensures startedInformers.Keys == old(startedInformers.Keys) + informers.Keys
    {
      var left := informers.Keys;
      while left != {}
        invariant left <= informers.Keys
        invariant startedInformers.Keys == old(startedInformers.Keys) + (informers.Keys - left)
        invariant forall k :: k in startedInformers ==> startedInformers[k]
        invariant forall k :: k in informers ==>
          informers[k].runs == if k in startedInformers then 1 else 0
        decreases left
      {
        var kind :| kind in left;
        assert forall k :: k in informers && k != kind ==> informers[k] != informers[kind];
        if !(kind in startedInformers && startedInformers[kind]) {
          informers[kind].Run();
          startedInformers := startedInformers[kind := true];
        }
        left := left - {kind};
      }
    }

    // The first part of WaitForCacheSync, under the lock.
    method StartedInformers() returns (snapshot: map<string, Informer>)
      requires Valid()
      ensures snapshot == IP.Running(Abs())
      ensures forall k :: k in snapshot ==> snapshot[k].runs == 1
    {
      snapshot := map[];
      var left := informers.Keys;
      while left != {}
        invariant left <= informers.Keys
        invariant forall k :: k in snapshot <==>
          k in informers && k !in left && k in startedInformers
        invariant forall k :: k in snapshot ==> snapshot[k] == informers[k]
        decreases left
      {
        var kind :| kind in left;
        if kind in startedInformers && startedInformers[kind] {
          snapshot := snapshot[kind := informers[kind]];
        }
        left := left - {kind};
      }
    }

    // synced says of each informer whether its cache synced before the stop channel closed.
    method WaitForCacheSync(synced: map<Informer, bool>) returns (res: map<string, bool>)
      requires Valid()
      ensures res.Keys == informers.Keys * Abs().started
      ensures forall k :: k in res ==>
        informers[k].runs == 1 && (res[k] <==> informers[k] in synced && synced[informers[k]])
    {
      var snapshot := StartedInformers();
      res := map[];
      var left := snapshot.Keys;
      while left != {}
        invariant left <= snapshot.Keys
        invariant res.Keys == snapshot.Keys - left
        invariant forall k :: k in res ==> (res[k] <==> snapshot[k] in synced && synced[snapshot[k]])
        decreases left
      {
        var kind :| kind in left;
        res := res[kind := snapshot[kind] in synced && synced[snapshot[kind]]];
        left := left - {kind};
      }
    }
  }
}
