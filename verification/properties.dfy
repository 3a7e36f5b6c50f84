/** What the fixture resolution algorithm guarantees: the shared state only
    grows, a request touches only the fixture names it can reach, the cache
    of every name lists exactly the instances the ledger records for it, a
    cache hit changes no shared state for `with` and `addFixture` (`create`
    still advances the name's global count once), and a miss builds exactly
    one instance after all the instances its factory requested. */
module Properties {
  import opened Values
  import opened Registry
  import opened Counters
  import opened Cache
  import opened Ledger
  import opened Engine
  import opened Getter

  /** The counter and the cache of `m` are the same in `w` and `w'`. */
  ghost predicate Unchanged(w: World, w': World, m: string)
  {
    Count(w'.global, m) == Count(w.global, m) && BucketOf(w'.cache, m) == BucketOf(w.cache, m)
  }

  /** Everything `w` holds is still in `w'`: the ledger and the heap are only
      appended to, counters only advance, and a cache entry that is not nil
      is never replaced. */
  ghost predicate Grows(w: World, w': World)
  {
    && |w.ledger| <= |w'.ledger| && w'.ledger[..|w.ledger|] == w.ledger
    && |w.heap| <= |w'.heap| && w'.heap[..|w.heap|] == w.heap
    && (forall m :: Count(w.global, m) <= Count(w'.global, m))
    && (forall n, k :: !IsNil(Lookup(BucketOf(w.cache, n), k)) ==>
                         Lookup(BucketOf(w'.cache, n), k) == Lookup(BucketOf(w.cache, n), k))
  }

  /** The invariant of the shared state: the i-th ledger entry is the i-th
      object built, every cached value is an instance, and the cache of each
      name holds exactly the instances built for it, in build order. */
  ghost predicate Good(w: World)
  {
    && |w.ledger| == |w.heap|
    && (forall i :: 0 <= i < |w.ledger| ==> w.ledger[i].data == Obj(i))
    && (forall n :: WellFormed(BucketOf(w.cache, n)))
    && (forall n, k :: k in BucketOf(w.cache, n).entries ==> !IsNil(BucketOf(w.cache, n).entries[k]))
    && (forall n :: OrderedValues(BucketOf(w.cache, n)) == BuiltFor(w.ledger, n))
  }

  lemma GrowsTrans(a: World, b: World, c: World)
    requires Grows(a, b) && Grows(b, c)
    ensures Grows(a, c)
  {
    assert c.ledger[..|a.ledger|] == c.ledger[..|b.ledger|][..|a.ledger|];
    assert c.heap[..|a.heap|] == c.heap[..|b.heap|][..|a.heap|];
  }

  lemma StartGood()
    ensures Good(Start)
  {
    forall n ensures OrderedValues(BucketOf(Start.cache, n)) == BuiltFor(Start.ledger, n) {
      assert BucketOf(Start.cache, n) == Empty;
    }
  }

  /** Creating the inner map of `name` and advancing counters keep the
      invariant. */
  lemma TouchKeeps(w: World, name: string, global: Counts)
    ensures Good(w) ==> Good(w.(cache := Touch(w.cache, name), global := global))
  {
    var w1 := w.(cache := Touch(w.cache, name), global := global);
    assert forall n :: BucketOf(w1.cache, n) == BucketOf(w.cache, n);
  }

  /** Recording a build at a key that was still nil keeps the invariant,
      changes only the cache of `name`, and adds one instance to it. */
  lemma CompleteKeeps(w: World, name: string, key: Value, instance: Record)
    requires IsNil(Lookup(BucketOf(w.cache, name), key))
    ensures Grows(w, Complete(w, name, key, instance))
    ensures forall m :: m != name ==> Unchanged(w, Complete(w, name, key, instance), m)
    ensures Good(w) ==> Good(Complete(w, name, key, instance))
    ensures Good(w) ==> OrderedValues(BucketOf(Complete(w, name, key, instance).cache, name))
                          == OrderedValues(BucketOf(w.cache, name)) + [Obj(|w.heap|)]
  {
    var w' := Complete(w, name, key, instance);
    var v := Obj(|w.heap|);
    assert w'.ledger[..|w.ledger|] == w.ledger;
    assert w'.heap[..|w.heap|] == w.heap;
    if Good(w) {
      var b := BucketOf(w.cache, name);
      assert key !in b.entries;
      InsertNewValues(b, key, v);
      assert w'.ledger[..|w'.ledger| - 1] == w.ledger;
      forall n ensures OrderedValues(BucketOf(w'.cache, n)) == BuiltFor(w'.ledger, n) {
        if n == name {
          assert BuiltFor(w'.ledger, n) == BuiltFor(w.ledger, n) + [v];
        } else {
          assert BuiltFor(w'.ledger, n) == BuiltFor(w.ledger, n);
        }
      }
      forall n, k | k in BucketOf(w'.cache, n).entries
        ensures !IsNil(BucketOf(w'.cache, n).entries[k])
      {
        if n == name && k != key {
          assert k in b.entries;
        }
      }
    }
  }

  /** `with` only lets the shared state grow, touches only the counters and
      caches of `name` and of names ranked below it, and keeps the invariant. */
  lemma {:induction false} WithKeeps(defs: Defs, rank: map<string, nat>, local: Counts, opts: Record, w: World, name: string)
    requires Ranked(defs, rank)
    ensures Grows(w, With(defs, rank, local, opts, w, name).world)
    ensures forall m :: m != name && !Lower(rank, m, Measure(rank, name)) ==>
                          Unchanged(w, With(defs, rank, local, opts, w, name).world, m)
    ensures Good(w) ==> Good(With(defs, rank, local, opts, w, name).world)
    decreases Measure(rank, name), 2, 0
  {
    var (local', opts') := StampIndex(local, name, opts);
    AddKeeps(defs, rank, opts', w, name);
  }

  /** The same for `addFixture`. */
  lemma {:induction false} AddKeeps(defs: Defs, rank: map<string, nat>, opts: Record, w: World, name: string)
    requires Ranked(defs, rank)
    ensures Grows(w, AddFixture(defs, rank, opts, w, name).world)
    ensures forall m :: m != name && !Lower(rank, m, Measure(rank, name)) ==>
                          Unchanged(w, AddFixture(defs, rank, opts, w, name).world, m)
    ensures Good(w) ==> Good(AddFixture(defs, rank, opts, w, name).world)
    decreases Measure(rank, name), 1, 1
  {
    match ResolveIdentity(defs, name, opts)
    case Err(_) =>
    case Ok(id) =>
      if IsNil(Lookup(BucketOf(w.cache, name), id.value)) {
        MissKeeps(defs, rank, opts, w, name, id);
      }
  }

  /** The state a miss leaves: the factory's dependencies are built, then the
      instance itself is recorded. */
  function MissWorld(defs: Defs, rank: map<string, nat>, opts: Record, w: World, name: string, id: Identity, d: DepsOut): World
    requires name in defs && d.result.Ok?
  {
    Complete(d.world, name, id.value, Build(defs[name].factory.fields, d.result.value))
  }

  /** The miss case of `AddKeeps`. */
  lemma {:induction false} MissKeeps(defs: Defs, rank: map<string, nat>, opts: Record, w: World, name: string, id: Identity)
    requires Ranked(defs, rank)
    requires ResolveIdentity(defs, name, opts) == Ok(id)
    requires IsNil(Lookup(BucketOf(w.cache, name), id.value))
    ensures Grows(w, AddFixture(defs, rank, opts, w, name).world)
    ensures forall m :: m != name && !Lower(rank, m, Measure(rank, name)) ==>
                          Unchanged(w, AddFixture(defs, rank, opts, w, name).world, m)
    ensures Good(w) ==> Good(AddFixture(defs, rank, opts, w, name).world)
    decreases Measure(rank, name), 1, 0
  {
    var (global', opts') := StampIndex(w.global, name, opts);
    var factory := FactoryOf(defs, name).value;
    var w1 := w.(cache := Touch(w.cache, name), global := global');
    var d := RunDeps(defs, rank, name, factory.deps, map[], opts' - {"fixtures"}, w1);
    DepsKeeps(defs, rank, name, factory.deps, map[], opts' - {"fixtures"}, w1);
    TouchKeeps(w, name, global');
    assert forall m :: m != name ==> Unchanged(w, w1, m);
    GrowsTrans(w, w1, d.world);
    if d.result.Ok? {
      assert Unchanged(w1, d.world, name);
      var w2 := MissWorld(defs, rank, opts, w, name, id, d);
      assert AddFixture(defs, rank, opts, w, name).world == w2;
      CompleteKeeps(d.world, name, id.value, Build(factory.fields, d.result.value));
      GrowsTrans(w, d.world, w2);
      assert forall m :: m != name ==> Unchanged(d.world, w2, m);
    } else {
      assert AddFixture(defs, rank, opts, w, name).world == d.world;
    }
  }

  /** A request for a name ranked below `bound` leaves every name not ranked
      below `bound` as it was. */
  lemma WithKeepsAbove(w: World, w': World, rank: map<string, nat>, name: string, bound: nat)
    requires Lower(rank, name, bound)
    requires forall m :: m != name && !Lower(rank, m, Measure(rank, name)) ==> Unchanged(w, w', m)
    ensures forall m :: !Lower(rank, m, bound) ==> Unchanged(w, w', m)
  {
  }

  lemma UnchangedTrans(a: World, b: World, c: World, rank: map<string, nat>, bound: nat)
    requires forall m :: !Lower(rank, m, bound) ==> Unchanged(a, b, m)
    requires forall m :: !Lower(rank, m, bound) ==> Unchanged(b, c, m)
    ensures forall m :: !Lower(rank, m, bound) ==> Unchanged(a, c, m)
  {
  }

  /** The same for the dependency requests of a factory of `owner`, which
      touch only names ranked below `owner`. */
  lemma {:induction false} DepsKeeps(defs: Defs, rank: map<string, nat>, owner: string, deps: seq<Dep>,
                                     local: Counts, input: Record, w: World)
    requires Ranked(defs, rank)
    requires forall d :: d in deps ==> Measure(rank, d.fixture) < Measure(rank, owner)
    requires forall d :: d in deps ==> Lower(rank, d.fixture, Measure(rank, owner))
    ensures Grows(w, RunDeps(defs, rank, owner, deps, local, input, w).world)
    ensures forall m :: !Lower(rank, m, Measure(rank, owner)) ==>
                          Unchanged(w, RunDeps(defs, rank, owner, deps, local, input, w).world, m)
    ensures Good(w) ==> Good(RunDeps(defs, rank, owner, deps, local, input, w).world)
    decreases Measure(rank, owner), 0, |deps|
  {
    if deps != [] {
      var dep := deps[0];
      assert dep in deps;
      assert forall d :: d in deps[1..] ==> d in deps;
      if Get(input, dep.field) != Undefined {
        DepsKeeps(defs, rank, owner, deps[1..], local, input, w);
      } else {
        var o := With(defs, rank, local, dep.options, w, dep.fixture);
        WithKeeps(defs, rank, local, dep.options, w, dep.fixture);
        WithKeepsAbove(w, o.world, rank, dep.fixture, Measure(rank, owner));
        match o.result
        case Err(_) =>
        case Ok(v) =>
          var d := RunDeps(defs, rank, owner, deps[1..], o.local, input[dep.field := v], o.world);
          DepsKeeps(defs, rank, owner, deps[1..], o.local, input[dep.field := v], o.world);
          GrowsTrans(w, o.world, d.world);
          UnchangedTrans(w, o.world, d.world, rank, Measure(rank, owner));
      }
    }
  }

  /** A default parameter whose field the options already supply issues no
      request: when every field is supplied, the factory input, the nested
      requester's counter and the shared state stay exactly as they were. */
  lemma {:induction false} SuppliedDepsSkip(defs: Defs, rank: map<string, nat>, owner: string, deps: seq<Dep>,
                                            local: Counts, input: Record, w: World)
    requires Ranked(defs, rank)
    requires forall d :: d in deps ==> Measure(rank, d.fixture) < Measure(rank, owner)
    requires forall d :: d in deps ==> Get(input, d.field) != Undefined
    ensures RunDeps(defs, rank, owner, deps, local, input, w) == DepsOut(Ok(input), local, w)
    decreases |deps|
  {
    if deps != [] {
      assert deps[0] in deps;
      assert forall d :: d in deps[1..] ==> d in deps;
      SuppliedDepsSkip(defs, rank, owner, deps[1..], local, input, w);
    }
  }

  /** A request fails only because a name it reaches was never defined: the
      error of a failing request, raised at the top or in any nested factory
      and propagated out of every enclosing one, names an undefined fixture. */
  lemma {:induction false} WithErr(defs: Defs, rank: map<string, nat>, local: Counts, opts: Record, w: World, name: string)
    requires Ranked(defs, rank)
    ensures var o := With(defs, rank, local, opts, w, name);
            o.result.Err? ==> o.result.error.name !in defs
    decreases Measure(rank, name), 2, 0
  {
    var (local', opts') := StampIndex(local, name, opts);
    AddErr(defs, rank, opts', w, name);
  }

  /** The same for `addFixture`. */
  lemma {:induction false} AddErr(defs: Defs, rank: map<string, nat>, opts: Record, w: World, name: string)
    requires Ranked(defs, rank)
    ensures var a := AddFixture(defs, rank, opts, w, name);
            a.result.Err? ==> a.result.error.name !in defs
    decreases Measure(rank, name), 1, 0
  {
    match ResolveIdentity(defs, name, opts)
    case Err(_) =>
    case Ok(id) =>
      if IsNil(Lookup(BucketOf(w.cache, name), id.value)) {
        var (global', opts') := StampIndex(w.global, name, opts);
        var factory := FactoryOf(defs, name).value;
        DepsErr(defs, rank, name, factory.deps, map[], opts' - {"fixtures"}, w.(cache := Touch(w.cache, name), global := global'));
      }
  }

  /** The same for a factory's default parameters. */
  lemma {:induction false} DepsErr(defs: Defs, rank: map<string, nat>, owner: string, deps: seq<Dep>,
                                   local: Counts, input: Record, w: World)
    requires Ranked(defs, rank)
    requires forall d :: d in deps ==> Measure(rank, d.fixture) < Measure(rank, owner)
    ensures var d := RunDeps(defs, rank, owner, deps, local, input, w);
            d.result.Err? ==> d.result.error.name !in defs
    decreases Measure(rank, owner), 0, |deps|
  {
    if deps != [] {
      var dep := deps[0];
      assert dep in deps;
      assert forall d :: d in deps[1..] ==> d in deps;
      if Get(input, dep.field) != Undefined {
        DepsErr(defs, rank, owner, deps[1..], local, input, w);
      } else {
        var o := With(defs, rank, local, dep.options, w, dep.fixture);
        WithErr(defs, rank, local, dep.options, w, dep.fixture);
        if o.result.Ok? {
          DepsErr(defs, rank, owner, deps[1..], o.local, input[dep.field := o.result.value], o.world);
        }
      }
    }
  }

  /** A request whose factory fails records nothing for its own name: its
      cache is as it was and, when the invariant holds, so are its ledger
      entries; only the global stamp of a defined name is kept. What its
      earlier dependency requests built stays recorded. */
  lemma FailedAddRecordsNothing(defs: Defs, rank: map<string, nat>, opts: Record, w: World, name: string)
    requires Ranked(defs, rank)
    ensures var a := AddFixture(defs, rank, opts, w, name);
            a.result.Err? ==>
              && BucketOf(a.world.cache, name) == BucketOf(w.cache, name)
              && Count(a.world.global, name) == Count(w.global, name) + (if name in defs then 1 else 0)
    ensures var a := AddFixture(defs, rank, opts, w, name);
            Good(w) && a.result.Err? ==> BuiltFor(a.world.ledger, name) == BuiltFor(w.ledger, name)
  {
    AddKeeps(defs, rank, opts, w, name);
    match ResolveIdentity(defs, name, opts)
    case Err(_) =>
    case Ok(id) =>
      if IsNil(Lookup(BucketOf(w.cache, name), id.value)) {
        var (global', opts') := StampIndex(w.global, name, opts);
        var factory := FactoryOf(defs, name).value;
        var w1 := w.(cache := Touch(w.cache, name), global := global');
        var d := RunDeps(defs, rank, name, factory.deps, map[], opts' - {"fixtures"}, w1);
        DepsKeeps(defs, rank, name, factory.deps, map[], opts' - {"fixtures"}, w1);
        assert BucketOf(w1.cache, name) == BucketOf(w.cache, name);
        assert Unchanged(w1, d.world, name);
        if d.result.Err? {
          assert AddFixture(defs, rank, opts, w, name).world == d.world;
        }
      }
  }

  /** A request for a name nobody defined fails after `with` has stamped its
      local index, and leaves the shared state as it was. */
  lemma UnknownFixtureFails(defs: Defs, rank: map<string, nat>, local: Counts, opts: Record, w: World, name: string)
    requires Ranked(defs, rank) && name !in defs
    ensures With(defs, rank, local, opts, w, name).result == Err(UnknownFixture(name))
    ensures With(defs, rank, local, opts, w, name).world == w
    ensures Count(With(defs, rank, local, opts, w, name).local, name) == Count(local, name) + 1
  {
  }

  /** `create` on a name nobody defined fails too, but its stamp from the
      global counter, made before the throw, is kept. */
  lemma CreateUnknown(defs: Defs, rank: map<string, nat>, opts: Record, w: World, name: string)
    requires Ranked(defs, rank) && name !in defs
    ensures Create(defs, rank, opts, w, name).result == Err(UnknownFixture(name))
    ensures Create(defs, rank, opts, w, name).world == w.(global := NextIndex(w.global, name).1)
  {
  }

  /** A factory whose first default parameter requests a name nobody defined
      fails with that name's error, and the enclosing `addFixture` records
      nothing for its own name: the throw leaves before the ledger push and
      the cache set. */
  lemma UndefinedDepPropagates(defs: Defs, rank: map<string, nat>, opts: Record, w: World, name: string)
    requires Ranked(defs, rank) && name in defs
    requires ResolveIdentity(defs, name, opts).Ok?
    requires IsNil(Lookup(BucketOf(w.cache, name), ResolveIdentity(defs, name, opts).value.value))
    requires defs[name].factory.deps != []
    requires defs[name].factory.deps[0].fixture !in defs
    requires Get(StampIndex(w.global, name, opts).1 - {"fixtures"}, defs[name].factory.deps[0].field) == Undefined
    ensures AddFixture(defs, rank, opts, w, name).result == Err(UnknownFixture(defs[name].factory.deps[0].fixture))
    ensures BuiltFor(AddFixture(defs, rank, opts, w, name).world.ledger, name) == BuiltFor(w.ledger, name)
    ensures BucketOf(AddFixture(defs, rank, opts, w, name).world.cache, name) == BucketOf(w.cache, name)
  {
    var (global', opts') := StampIndex(w.global, name, opts);
    var dep := defs[name].factory.deps[0];
    var w1 := w.(cache := Touch(w.cache, name), global := global');
    UnknownFixtureFails(defs, rank, map[], dep.options, w1, dep.fixture);
    assert BucketOf(w1.cache, name) == BucketOf(w.cache, name);
  }

  /** The caller's options object only ever gains the index `with` stamped
      from the local counter: the global stamp never overwrites it, and the
      nested requester goes to the factory's copy, not into the caller's object. */
  lemma CallerOptionsOnlyStamped(defs: Defs, rank: map<string, nat>, local: Counts, opts: Record, w: World, name: string)
    requires Ranked(defs, rank)
    ensures With(defs, rank, local, opts, w, name).options == StampIndex(local, name, opts).1
    ensures "fixtures" in With(defs, rank, local, opts, w, name).options <==> "fixtures" in opts
  {
    var opts1 := StampIndex(local, name, opts).1;
    assert Get(opts1, "index") != Undefined;
  }

  /** Dedup fast path: when the resolved key value already has an instance,
      `with` returns it without calling the factory, appending to the ledger
      or advancing the global counter; only the local counter advances. */
  lemma WithHit(defs: Defs, rank: map<string, nat>, local: Counts, opts: Record, w: World, name: string)
    requires Ranked(defs, rank)
    requires ResolveIdentity(defs, name, StampIndex(local, name, opts).1).Ok?
    requires !IsNil(Lookup(BucketOf(w.cache, name), ResolveIdentity(defs, name, StampIndex(local, name, opts).1).value.value))
    ensures With(defs, rank, local, opts, w, name).result
              == Ok(Lookup(BucketOf(w.cache, name), ResolveIdentity(defs, name, StampIndex(local, name, opts).1).value.value))
    ensures With(defs, rank, local, opts, w, name).world == w
    ensures Count(With(defs, rank, local, opts, w, name).local, name) == Count(local, name) + 1
  {
    assert name in w.cache;
  }

  /** A miss builds exactly one instance of `name`: a fresh object, appended
      to the ledger after every instance its factory's requests built, cached
      under the key value resolved before the factory ran; the global counter
      of `name` advances once. */
  lemma {:induction false} MissBuildsOnce(defs: Defs, rank: map<string, nat>, opts: Record, w: World, name: string)
    requires Ranked(defs, rank) && Good(w)
    requires ResolveIdentity(defs, name, opts).Ok?
    requires IsNil(Lookup(BucketOf(w.cache, name), ResolveIdentity(defs, name, opts).value.value))
    requires AddFixture(defs, rank, opts, w, name).result.Ok?
    ensures var a := AddFixture(defs, rank, opts, w, name);
            && |w.ledger| < |a.world.ledger|
            && a.world.ledger[..|w.ledger|] == w.ledger
            && a.world.ledger[|a.world.ledger| - 1] == FixtureData(name, a.result.value)
            && a.result.value == Obj(|a.world.heap| - 1) && |w.heap| <= a.result.value.ref
            && Lookup(BucketOf(a.world.cache, name), ResolveIdentity(defs, name, opts).value.value) == a.result.value
            && BuiltFor(a.world.ledger, name) == BuiltFor(w.ledger, name) + [a.result.value]
            && Count(a.world.global, name) == Count(w.global, name) + 1
            && a.options == StampIndex(w.global, name, opts).1
  {
    var id := ResolveIdentity(defs, name, opts).value;
    var (global', opts') := StampIndex(w.global, name, opts);
    var factory := FactoryOf(defs, name).value;
    var w1 := w.(cache := Touch(w.cache, name), global := global');
    var d := RunDeps(defs, rank, name, factory.deps, map[], opts' - {"fixtures"}, w1);
    DepsKeeps(defs, rank, name, factory.deps, map[], opts' - {"fixtures"}, w1);
    TouchKeeps(w, name, global');
    assert Unchanged(w1, d.world, name);
    var w2 := MissWorld(defs, rank, opts, w, name, id, d);
    assert AddFixture(defs, rank, opts, w, name).world == w2;
    CompleteKeeps(d.world, name, id.value, Build(factory.fields, d.result.value));
    MissKeeps(defs, rank, opts, w, name, id);
    assert w2.ledger[..|w.ledger|] == d.world.ledger[..|w.ledger|];
  }

  /** `create` stamps its default index from the global counter; on a miss
      that counter of `name` then advances a second time in `addFixture`, on
      a hit it advances once and nothing is built. */
  lemma CreateCounts(defs: Defs, rank: map<string, nat>, opts: Record, w: World, name: string)
    requires Ranked(defs, rank) && Good(w) && name in defs
    ensures var c := Create(defs, rank, opts, w, name);
            var stamped := StampIndex(w.global, name, opts).1;
            var cached := Lookup(BucketOf(w.cache, name), ResolveIdentity(defs, name, stamped).value.value);
            && Get(stamped, IndexKey) == (if Get(opts, IndexKey) == Undefined then Int(Count(w.global, name)) else Get(opts, IndexKey))
            && (!IsNil(cached) ==> c.result == Ok(cached) && c.world == w.(global := StampIndex(w.global, name, opts).0))
            && (IsNil(cached) && c.result.Ok? ==>
                  && Count(c.world.global, name) == Count(w.global, name) + 2
                  && |w.ledger| < |c.world.ledger| && c.world.ledger[..|w.ledger|] == w.ledger
                  && BuiltFor(c.world.ledger, name) == BuiltFor(w.ledger, name) + [c.result.value])
  {
    var (global', stamped) := StampIndex(w.global, name, opts);
    var w1 := w.(global := global');
    var key := ResolveIdentity(defs, name, stamped).value.value;
    assert BucketOf(w1.cache, name) == BucketOf(w.cache, name);
    if IsNil(Lookup(BucketOf(w.cache, name), key)) && Create(defs, rank, opts, w, name).result.Ok? {
      TouchKeeps(w, name, global');
      assert Touch(w.cache, name) == w.cache || name !in w.cache;
      assert w1 == w.(cache := w.cache, global := global');
      MissBuildsOnce(defs, rank, stamped, w1, name);
    } else if !IsNil(Lookup(BucketOf(w.cache, name), key)) {
      assert name in w.cache;
    }
  }

  /** After a successful request, its instance is cached under the key value
      the request resolved, and it is not nil. */
  lemma WithCaches(defs: Defs, rank: map<string, nat>, local: Counts, opts: Record, w: World, name: string)
    requires Ranked(defs, rank) && Good(w)
    requires With(defs, rank, local, opts, w, name).result.Ok?
    ensures ResolveIdentity(defs, name, StampIndex(local, name, opts).1).Ok?
    ensures var o := With(defs, rank, local, opts, w, name);
            && !IsNil(o.result.value)
            && Lookup(BucketOf(o.world.cache, name), ResolveIdentity(defs, name, StampIndex(local, name, opts).1).value.value)
               == o.result.value
  {
    var stamped := StampIndex(local, name, opts).1;
    var key := ResolveIdentity(defs, name, stamped).value.value;
    if IsNil(Lookup(BucketOf(w.cache, name), key)) {
      MissBuildsOnce(defs, rank, stamped, w, name);
    } else {
      WithHit(defs, rank, local, opts, w, name);
    }
  }

  /** Dedup: once a request has produced an instance, every later request of
      the same name whose options resolve to the same key value returns that
      same instance and changes nothing but the requester's local counter. */
  lemma SameIdentitySameInstance(defs: Defs, rank: map<string, nat>, local: Counts, opts: Record, w: World,
                                 name: string, local2: Counts, opts2: Record, w2: World)
    requires Ranked(defs, rank) && Good(w)
    requires With(defs, rank, local, opts, w, name).result.Ok?
    requires Grows(With(defs, rank, local, opts, w, name).world, w2)
    requires ResolveIdentity(defs, name, StampIndex(local2, name, opts2).1).Ok?
    requires ResolveIdentity(defs, name, StampIndex(local2, name, opts2).1).value.value
             == ResolveIdentity(defs, name, StampIndex(local, name, opts).1).value.value
    ensures With(defs, rank, local2, opts2, w2, name).result == With(defs, rank, local, opts, w, name).result
    ensures With(defs, rank, local2, opts2, w2, name).world == w2
  {
    WithCaches(defs, rank, local, opts, w, name);
    WithHit(defs, rank, local2, opts2, w2, name);
  }

  /** `create` only lets the shared state grow, touches only the counters
      and caches of `name` and of names ranked below it, and keeps the
      invariant. */
  lemma CreateKeeps(defs: Defs, rank: map<string, nat>, opts: Record, w: World, name: string)
    requires Ranked(defs, rank)
    ensures Grows(w, Create(defs, rank, opts, w, name).world)
    ensures forall m :: m != name && !Lower(rank, m, Measure(rank, name)) ==>
                          Unchanged(w, Create(defs, rank, opts, w, name).world, m)
    ensures Good(w) ==> Good(Create(defs, rank, opts, w, name).world)
  {
    var (global', opts') := StampIndex(w.global, name, opts);
    var w1 := w.(global := global');
    AddKeeps(defs, rank, opts', w1, name);
    assert Grows(w, w1);
    GrowsTrans(w, w1, Create(defs, rank, opts, w, name).world);
    assert forall m :: m != name ==> Unchanged(w, w1, m);
  }

  /** For every name, the ledger's instances of that name, read off
      `toBuild.map(d => d.name)` and `toBuild.map(d => d.data)`, are the
      values the cache holds for it, in insertion order. */
  lemma LedgerListsCache(w: World, name: string)
    requires Good(w)
    ensures Select(Names(w.ledger), Data(w.ledger), name) == OrderedValues(BucketOf(w.cache, name))
  {
    SelectNamesData(w.ledger, name);
  }

  /** `get(name)` lists exactly the instances the ledger records for `name`,
      in build order. */
  lemma GetterListsBuilt(defs: Defs, w: World, name: string)
    requires Good(w) && name in defs
    ensures View(defs, w.cache, w.heap, name).Ok?
    ensures View(defs, w.cache, w.heap, name).value.items == BuiltFor(w.ledger, name)
  {
  }
}
