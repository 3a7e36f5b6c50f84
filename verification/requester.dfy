/** `FixtureRequester`: the object factories and callers request fixtures
    through. Each method is proved to compute the corresponding function of
    `Engine` on the objects it shares. */
module Requester {
  import opened Values
  import opened Registry
  import opened Counters
  import opened Cache
  import opened Ledger
  import Engine

  class FixtureRequester {
    const dict: Dictionary
    const local: IndexCounter
    const global: IndexCounter
    const cache: FixtureCache
    const ledger: FixtureGraphRequester
    const heap: Heap

    constructor (dict: Dictionary, local: IndexCounter, global: IndexCounter,
                 cache: FixtureCache, ledger: FixtureGraphRequester, heap: Heap)
      ensures this.dict == dict && this.local == local && this.global == global
      ensures this.cache == cache && this.ledger == ledger && this.heap == heap
    {
      this.dict := dict;
      this.local := local;
      this.global := global;
      this.cache := cache;
      this.ledger := ledger;
      this.heap := heap;
    }

    /** The local and the global counter are different objects. */
    predicate Valid()
    {
      local != global
    }

    /** The state this requester shares with the requesters it nests. */
    function Shared(): Engine.World
      reads global, cache, ledger, heap
    {
      Engine.World(global.counts, cache.buckets, ledger.toBuild, heap.objects)
    }

    /** `with(name, options)` */
    method With(name: string, opts: Options, ghost rank: map<string, nat>) returns (r: Result<Value>)
      requires Valid() && Ranked(dict.defs, rank)
      modifies opts, local, global, cache, ledger, heap
      ensures Engine.With(dict.defs, rank, old(local.counts), old(opts.fields), old(Shared()), name)
              == Engine.WithOut(r, local.counts, opts.fields, Shared())
      decreases Engine.Measure(rank, name), 2, 0
    {
      local.MutateOptions(name, opts);
      r := AddFixture(name, opts, rank);
    }

    /** `create(name, options)` */
    method Create(name: string, opts: Options, ghost rank: map<string, nat>) returns (r: Result<Value>)
      requires Valid() && Ranked(dict.defs, rank)
      modifies opts, global, cache, ledger, heap
      ensures Engine.Create(dict.defs, rank, old(opts.fields), old(Shared()), name)
              == Engine.AddOut(r, opts.fields, Shared())
    {
      global.MutateOptions(name, opts);
      r := AddFixture(name, opts, rank);
    }

    /** `addFixture(name, options)` */
    method AddFixture(name: string, opts: Options, ghost rank: map<string, nat>) returns (r: Result<Value>)
      requires Valid() && Ranked(dict.defs, rank)
      modifies opts, global, cache, ledger, heap
      ensures Engine.AddFixture(dict.defs, rank, old(opts.fields), old(Shared()), name)
              == Engine.AddOut(r, opts.fields, Shared())
      decreases Engine.Measure(rank, name), 1, 0
    {
      var id := ResolveIdentity(dict.defs, name, opts.fields);
      if id.Err? {
        return Err(id.error);
      }
      var key := id.value.value;
      var cached := cache.Get(name, key);
      if !IsNil(cached) {
        return Ok(cached);
      }
      global.MutateOptions(name, opts);
      var factory := FactoryOf(dict.defs, name).value;
      var nestedCounter := new IndexCounter();
      var nested := new FixtureRequester(dict, nestedCounter, global, cache, ledger, heap);
      var input := nested.RunFactory(name, factory.deps, opts.fields - {"fixtures"}, rank);
      if input.Err? {
        return Err(input.error);
      }
      var instance := heap.Alloc(Build(factory.fields, input.value));
      ledger.With(name, instance);
      cache.Set(name, key, instance);
      r := Ok(instance);
    }

    /** The factory's default parameters `field = fixtures.with(...)`, run on
        this (nested) requester in order, each only when its field is still
        undefined; the first failing request propagates. */
    method RunFactory(owner: string, deps: seq<Dep>, input: Record, ghost rank: map<string, nat>)
      returns (r: Result<Record>)
      requires Valid() && Ranked(dict.defs, rank)
      requires forall d :: d in deps ==> Engine.Measure(rank, d.fixture) < Engine.Measure(rank, owner)
      modifies local, global, cache, ledger, heap
      ensures Engine.RunDeps(dict.defs, rank, owner, deps, old(local.counts), input, old(Shared()))
              == Engine.DepsOut(r, local.counts, Shared())
      decreases Engine.Measure(rank, owner), 0, |deps|
    {
      var completed := input;
      var i := 0;
      while i < |deps|
        invariant 0 <= i <= |deps|
        invariant Engine.RunDeps(dict.defs, rank, owner, deps, old(local.counts), input, old(Shared()))
                  == Engine.RunDeps(dict.defs, rank, owner, deps[i..], local.counts, completed, Shared())
      {
        var dep := deps[i];
        assert deps[i..][0] == dep && deps[i..][1..] == deps[i + 1..];
        assert dep in deps;
        if Get(completed, dep.field) == Undefined {
          var depOpts := new Options(dep.options);
          var v := With(dep.fixture, depOpts, rank);
          if v.Err? {
            return Err(v.error);
          }
          completed := completed[dep.field := v.value];
        }
        i := i + 1;
      }
      r := Ok(completed);
    }
  }
}
