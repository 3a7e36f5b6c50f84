/** The fixture resolution algorithm of `FixtureRequester`, as functions
    over the state a requester tree shares: the global counter, the cache,
    the ledger and the heap of built objects. The requester class is proved
    to compute exactly these functions. */
module Engine {
  import opened Values
  import opened Registry
  import opened Counters
  import opened Cache
  import opened Ledger

  /** The state shared by reference between a requester and every nested
      requester it creates. */
  datatype World = World(global: Counts, cache: CacheState, ledger: seq<FixtureData>, heap: seq<Record>)

  /** A scenario's state before any request. */
  const Start := World(map[], map[], [], [])

  /** The outcome of `with`: its result, the requester's local counts, the
      caller's options object afterwards and the shared state. */
  datatype WithOut = WithOut(result: Result<Value>, local: Counts, options: Record, world: World)

  /** The outcome of `addFixture` and `create`. */
  datatype AddOut = AddOut(result: Result<Value>, options: Record, world: World)

  /** The outcome of running a factory's dependency requests: the completed
      factory input, the nested requester's local counts and the shared state. */
  datatype DepsOut = DepsOut(result: Result<Record>, local: Counts, world: World)

  /** Termination measure: fixtures outside the rank are never defined. */
  function Measure(rank: map<string, nat>, name: string): nat
  {
    if name in rank then rank[name] else 0
  }

  /** `m` is ranked below `bound`. */
  ghost predicate Lower(rank: map<string, nat>, m: string, bound: nat)
  {
    m in rank && rank[m] < bound
  }

  /** `with(name, options)`: stamp a default index from the local counter,
      then resolve. */
  function With(defs: Defs, rank: map<string, nat>, local: Counts, opts: Record, w: World, name: string): WithOut
    requires Ranked(defs, rank)
    decreases Measure(rank, name), 2, 0
  {
    var (local', opts') := StampIndex(local, name, opts);
    var a := AddFixture(defs, rank, opts', w, name);
    WithOut(a.result, local', a.options, a.world)
  }

  /** `create(name, options)`: stamp a default index from the global counter,
      then resolve. */
  function Create(defs: Defs, rank: map<string, nat>, opts: Record, w: World, name: string): AddOut
    requires Ranked(defs, rank)
  {
    var (global', opts') := StampIndex(w.global, name, opts);
    AddFixture(defs, rank, opts', w.(global := global'), name)
  }

  /** `addFixture(name, options)`: a cache hit returns the cached instance;
      a miss stamps the global index, runs the factory with a fresh nested
      requester, then records the result in the ledger and the cache under
      the key value resolved before the factory ran. */
  function AddFixture(defs: Defs, rank: map<string, nat>, opts: Record, w: World, name: string): AddOut
    requires Ranked(defs, rank)
    decreases Measure(rank, name), 1, 0
  {
    match ResolveIdentity(defs, name, opts)
    case Err(e) => AddOut(Err(e), opts, w)
    case Ok(id) =>
      var cached := Lookup(BucketOf(w.cache, name), id.value);
      var touched := w.(cache := Touch(w.cache, name));
      if !IsNil(cached) then AddOut(Ok(cached), opts, touched)
      else
        var (global', opts') := StampIndex(w.global, name, opts);
        var factory := FactoryOf(defs, name).value;
        var d := RunDeps(defs, rank, name, factory.deps, map[], opts' - {"fixtures"}, touched.(global := global'));
        match d.result
        case Err(e) => AddOut(Err(e), opts', d.world)
        case Ok(input) =>
          AddOut(Ok(Obj(|d.world.heap|)), opts', Complete(d.world, name, id.value, Build(factory.fields, input)))
  }

  /** After the factory returns: allocate its object literal, append it to
      the ledger, store it in the cache. */
  function Complete(w: World, name: string, key: Value, instance: Record): World
  {
    var v := Obj(|w.heap|);
    World(w.global, CacheSet(w.cache, name, key, v), w.ledger + [FixtureData(name, v)], w.heap + [instance])
  }

  /** The factory's default parameters `field = fixtures.with(...)`, in
      order, each only when its field is still undefined; a failing request
      propagates out of the factory. */
  function RunDeps(defs: Defs, rank: map<string, nat>, owner: string, deps: seq<Dep>,
                   local: Counts, input: Record, w: World): DepsOut
    requires Ranked(defs, rank)
    requires forall d :: d in deps ==> Measure(rank, d.fixture) < Measure(rank, owner)
    decreases Measure(rank, owner), 0, |deps|
  {
    if deps == [] then DepsOut(Ok(input), local, w)
    else
      var dep := deps[0];
      if Get(input, dep.field) != Undefined then
        RunDeps(defs, rank, owner, deps[1..], local, input, w)
      else
        var o := With(defs, rank, local, dep.options, w, dep.fixture);
        match o.result
        case Err(e) => DepsOut(Err(e), o.local, o.world)
        case Ok(v) => RunDeps(defs, rank, owner, deps[1..], o.local, input[dep.field := v], o.world)
  }
}
