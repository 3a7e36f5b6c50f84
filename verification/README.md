# Fixture resolution engine, modelled in Dafny

This project models the fixture engine of `src/index.ts`. A test declares
fixture types (`FixtureDictionary.define`): a factory plus an identity key.
It then requests instances through a `FixtureRequester`.

- `with` stamps a default `index` from the requester's own local counter.
- `create` stamps it from the shared global counter.
- `addFixture` resolves the request's identity (`FixtureKey.get`) and looks
  it up in the two-level cache (`FixtureCache`).
- On a miss, `addFixture` stamps the global index again and runs the
  factory. The factory gets a fresh nested requester for its own
  dependency requests.
- Once the factory returns, the instance is appended to the build ledger
  (`FixtureGraphRequester.toBuild`) and stored in the cache under the key
  value resolved before the factory ran.
- `FixtureGetter.get` is a memoized view of the cache. `inc` is a closure
  counter.

The model has two layers:

- **Specification functions.** `Engine.With`, `Engine.Create`,
  `Engine.AddFixture` and `Engine.RunDeps` define the algorithm over the
  shared state `World`: global counter, cache, ledger and heap.
- **Classes.** These mirror the source's objects and update their fields in
  place: `Counters.IndexCounter`, `Cache.FixtureCache`,
  `Ledger.FixtureGraphRequester`, `Registry.Dictionary`,
  `Getter.FixtureGetter`, `Requester.FixtureRequester` and
  `Inc.Incrementer`. Every method is proved to compute the specification
  function on the state it changes.

The lemmas in `Properties` state, for `with`, `create` and `addFixture`:

- it only adds to the state;
- it touches only the names a request can reach;
- the cache of each name lists exactly the ledger's instances of that name;
- for `with` and `addFixture`, a cache hit changes no shared state (only the
  requester's local counter and the caller's options, which `with` stamps
  first); a hit of `create` still advances the name's global count once,
  since `create` stamps from the global counter before the lookup;
- a miss builds exactly one instance, after everything its factory built.

The chat test of `src/index.test.ts` is encoded with its two factories.
Its four scenarios are proved in two forms:

- as lemmas over the specification (`Scenarios`);
- as the same call scripts on the real objects (`Scripts`).

JavaScript values are `Values.Value`. Objects are references into a heap of
records, so object equality is identity, as with `===` and `Map` keys.

## Model

| member | source | states |
|---|---|---|
| Counters.NextIndex | src/index.ts:56-58 | `getNewIndex` returns the name's current count (0 for a name never used) and increments only that name's count |
| Counters.IndexCounter.GetNewIndex | src/index.ts:51-58 | the counter object returns and advances exactly as `NextIndex` says |
| Counters.ConsecutiveIndices | src/index.ts:56-58 | k calls on one name advance its count by exactly k and leave every other name's count alone |
| Counters.CountingScript | src/index.ts:51-58 | successive calls on one name yield 0, 1, 2; a second name starts at 0 |
| Counters.Defaults | src/index.ts:61 | `_.defaults` sets `index` only when it reads as undefined and changes no other field |
| Counters.StampIndex | src/index.ts:60-62 | `mutateOptions` always advances the name's count by one, never overwrites a supplied index, and otherwise stamps the old count |
| Counters.IndexCounter.MutateOptions | src/index.ts:60-62 | the method updates the counter and the caller's options object as `StampIndex` says |
| Registry.AddDefinition | src/index.ts:16-28 | `define` stores the factory, defaults the key to `index`, and replaces an earlier definition of the same name only |
| Registry.Dictionary.Define | src/index.ts:16-28 | the dictionary's definitions become `AddDefinition` of the old ones |
| Registry.FactoryOf | src/index.ts:30-32 | the factory lookup succeeds exactly for defined names and then returns the registered factory; `addFixture` obtains its factory through it |
| Registry.ResolveIdentity | src/index.ts:68-78 | succeeds exactly for defined names; the result is the registered key when the options give it a value (or it is `index`), otherwise `index`, and the value is always the options' value for the chosen key |
| Registry.DefineThenResolve | src/index.ts:20 | a definition without a key deduplicates by `index`, also after redefining a name |
| Registry.CustomKeyResolves | src/index.ts:68-78 | with a custom key present in the options, the identity is that key and its value |
| Registry.Build | src/index.test.ts:28-50 | a factory's object literal has exactly its listed fields, and supplied option values pass through unchanged |
| Cache.Lookup | src/index.ts:95 | `Map.get`: the stored value, undefined for a missing key; no contract of its own, characterized through `Insert`, `FixtureCache.Get` and `Properties.WithHit` |
| Cache.OrderedValues | src/index.ts:134 | `Array.from(map.values())`: one value per key, in key insertion order; `InsertNewValues` and `Properties.GetterListsBuilt` characterize it |
| Cache.Insert | src/index.ts:112 | `Map.set` stores the value under the key, changes no other key, appends a new key to the order, and keeps the map well formed |
| Cache.InsertNewValues | src/index.ts:112 | setting a new key appends its value to the values in insertion order |
| Cache.Touch | src/index.ts:36 | the memoized inner map is created empty on first access and nothing else changes |
| Cache.CacheSet | src/index.ts:112 | only the bucket of the given name changes, by `Insert` |
| Cache.FixtureCache.Get | src/index.ts:95 | `map(name).get(key)` creates the inner map if needed and returns the stored value or undefined |
| Cache.FixtureCache.Set | src/index.ts:112 | `map(name).set(key, value)` updates the cache as `CacheSet` says |
| Cache.FixtureCache.ValuesOf | src/index.ts:134 | `Array.from(map(name).values())` lists the values in insertion order |
| Ledger.FixtureGraphRequester.With | src/index.ts:46-48 | the ledger gains exactly one entry, at its end |
| Ledger.BuiltForMembers | src/index.ts:43-48 | the instances of one fixture name in the ledger `toBuild`: a value is listed exactly when the ledger holds an entry of that name with that value |
| Ledger.SelectNamesData | src/index.ts:43-48 | reading the ledger's names and instances side by side and keeping those of one name gives exactly the instances recorded for that name, in build order |
| Values.Get | src/index.ts:72 | `_.get` on a single field, undefined when absent; no contract of its own, a helper of `ResolveIdentity`, `Defaults` and `Build` |
| Values.IsNil | src/index.ts:96 | `_.isNil`: null or undefined; no contract of its own, the hit/miss test of `Engine.AddFixture` |
| Values.ToJsString | src/index.ts:136-141 | `String(v)` as a template literal or a property key converts it; no contract of its own, used by `Build` for `username${index}` and by `Getter.AliasOf` |
| Values.Heap.Alloc | src/index.test.ts:46-50 | a factory's object literal is a fresh object, distinct from every earlier one |
| Engine.With | src/index.ts:116-119 | no contract of its own: stamp from the local counter, then `AddFixture`; characterized by `Properties.WithKeeps`, `WithHit`, `WithCaches`, `UnknownFixtureFails`, `CallerOptionsOnlyStamped` and `SameIdentitySameInstance` |
| Engine.Create | src/index.ts:121-124 | no contract of its own: stamp from the global counter, then `AddFixture`; characterized by `Properties.CreateKeeps` and `CreateCounts` |
| Engine.AddFixture | src/index.ts:90-114 | no contract of its own: hit returns the cached instance, miss stamps the global index, runs the factory's requests and records the instance; characterized by `Properties.AddKeeps`, `MissKeeps` and `MissBuildsOnce` |
| Engine.RunDeps | src/index.ts:101-110 | no contract of its own: the factory's default parameters in order, only for undefined fields, first failure propagates; characterized by `Properties.DepsKeeps` (frame and invariant), `Properties.SuppliedDepsSkip` (supplied fields issue no request), `Properties.DepsErr` (failures name an undefined fixture) and, for the message factory, `Scenarios.MessageDeps`, `MessageDepsSupplied`, `MessageDepsToOnly` and `MessageDepsFromOnly` |
| Engine.Complete | src/index.ts:111-112 | no contract of its own: allocate the instance, append it to the ledger, cache it; characterized by `Properties.CompleteKeeps` |
| Requester.FixtureRequester.With | src/index.ts:116-119 | `with` stamps from the local counter, then resolves; its effect on the counters, the options, the cache, the ledger and the heap is `Engine.With` |
| Requester.FixtureRequester.Create | src/index.ts:121-124 | `create` stamps from the global counter, then resolves, as `Engine.Create` |
| Requester.FixtureRequester.AddFixture | src/index.ts:90-114 | `addFixture` returns the cached instance on a hit; on a miss it stamps the global index, runs the factory with a nested requester that has a fresh local counter and the shared global counter, cache and ledger, and then records the instance; all as `Engine.AddFixture` |
| Requester.FixtureRequester.RunFactory | src/index.ts:101-110 | the factory's default parameters `field = fixtures.with(...)` run in order on the nested requester, only for fields still undefined, and the first failure propagates; as `Engine.RunDeps` |
| Getter.FixtureGetter.Get | src/index.ts:133-143 | the first `get(name)` computes `View` of the cache and memoizes it; later calls return the memoized listing unchanged |
| Getter.View | src/index.ts:133-142 | no contract of its own: the cached values in insertion order, plus the named properties when the key is not `index`; characterized by `Properties.GetterListsBuilt`, `AliasesSound` and `AliasesUnique` |
| Getter.Aliases | src/index.ts:136-141 | no contract of its own: the loop `values[keyValue] = value`, a later instance replacing an earlier one with the same key string; characterized by `AliasesSound` and `AliasesUnique` |
| Getter.AliasesSound | src/index.ts:136-141 | every named property of a listing holds one of its instances under that instance's own key string, and every instance's key string is a property |
| Getter.AliasesUnique | src/index.ts:136-141 | an instance whose key string no other instance shares is reachable under it |
| Inc.Incrementer.Call | src/index.ts:146-151 | each call returns `fn(i)` for the captured `i` and increments it |
| Inc.IncScript | src/index.ts:146-151 | successive calls of one closure yield `fn(0)`, `fn(1)`, `fn(2)`; another closure counts on its own |
| Properties.GrowsTrans | src/index.ts:90-114 | "only grows" is transitive |
| Properties.StartGood | src/index.ts:35-49 | the empty state satisfies the cache/ledger invariant |
| Properties.TouchKeeps | src/index.ts:95 | creating an inner map keeps the invariant |
| Properties.CompleteKeeps | src/index.ts:111-112 | recording a build at a nil key only grows the state, changes only that name's cache, keeps the invariant, and appends the instance to the name's cached values |
| Properties.WithKeeps | src/index.ts:116-119 | `with` only grows the shared state, changes the counter and cache only of the requested name and of names ranked below it, and keeps the invariant |
| Properties.AddKeeps | src/index.ts:90-114 | the same for `addFixture` |
| Properties.MissKeeps | src/index.ts:99-113 | the same for the miss path of `addFixture` |
| Properties.DepsKeeps | src/index.ts:101-110 | a factory's dependency requests touch only names ranked below its own, and only grow the state while keeping the invariant |
| Properties.WithKeepsAbove | src/index.ts:101-110 | a dependency ranked below its owner leaves the names not ranked below the owner unchanged |
| Properties.UnchangedTrans | src/index.ts:101-110 | "unchanged above a bound" is transitive |
| Properties.CreateKeeps | src/index.ts:121-124 | `create` only grows the shared state, changes the counter and cache only of the requested name and of names ranked below it, and keeps the invariant |
| Properties.LedgerListsCache | src/index.ts:111-112 | for every name, the ledger's instances of that name, read off its names and instances, are the cache's values for it in insertion order |
| Properties.SuppliedDepsSkip | src/index.ts:101-110 | when the options already supply every defaulted field, the factory issues no request: the input, the nested counter and the shared state are unchanged |
| Properties.WithErr | src/index.ts:116-118 | a failing `with` fails only because some name it reaches, at the top or in a nested factory, was never defined |
| Properties.AddErr | src/index.ts:90-113 | the same for `addFixture`: every error it returns, raised by itself or by a nested factory, names an undefined fixture |
| Properties.DepsErr | src/index.ts:101-110 | the same for a factory's default parameters: every error they return names an undefined fixture |
| Properties.UndefinedDepPropagates | src/index.ts:99-112 | a miss whose first default parameter requests an undefined name fails with that name's error, and the throw leaves `addFixture` before the ledger push and the cache set, so nothing is recorded for its own name |
| Properties.CreateUnknown | src/index.ts:121-123 | `create` on an undefined name fails with that name's error, and its global stamp, made before the throw, is kept |
| Properties.FailedAddRecordsNothing | src/index.ts:99-112 | a failing `addFixture` leaves its own name's cache as it was and, under the invariant, its ledger entries too, because the throw leaves before :111-112; only the global stamp of a defined name is kept |
| Properties.UnknownFixtureFails | src/index.ts:69-71 | a request for a name never defined fails with the shared state unchanged, after the local index was consumed |
| Properties.CallerOptionsOnlyStamped | src/index.ts:99-110 | the caller's options object ends up holding only the stamp of `with`: the global stamp never overwrites it, and the `fixtures` field goes to the factory's copy, never into the caller's object |
| Properties.WithHit | src/index.ts:95-98 | on a cache hit `with` returns the cached instance and leaves ledger, heap, cache and global counter as they were; only the local count advances |
| Properties.MissBuildsOnce | src/index.ts:99-113 | a miss appends exactly one ledger entry, for the new instance, after every entry its factory's requests added; caches it under the key value resolved before the factory ran; advances the name's global count exactly once |
| Properties.CreateCounts | src/index.ts:99-124 | `create` stamps the global count; on a hit only that advance happens; on a miss the global count of the name advances twice and exactly one instance is built |
| Properties.WithCaches | src/index.ts:95-113 | after a successful request its non-nil instance is cached under the resolved key value |
| Properties.SameIdentitySameInstance | src/index.ts:91-98 | any later request of the same name whose key value is the same returns the same instance and changes no shared state |
| Properties.GetterListsBuilt | src/index.ts:133-135 | a name's listing is exactly the ledger's instances of that name, in build order |
| Scenarios.TestSetupDefines | src/index.test.ts:51-57 | the setup's two `define` calls produce the test's definitions |
| Scenarios.TestDefsRanked | src/index.test.ts:36-57 | messages request only users and users request nothing, so requests terminate |
| Scenarios.UserFactoryDefaults | src/index.test.ts:28-35 | `userFactory` defaults `username` to `username${index}` and `password` to `"123456"`, and keeps a supplied username |
| Scenarios.MessageFactoryPassesThrough | src/index.test.ts:36-50 | `messageFactory` returns `from`, `to` and `content` unchanged |
| Scenarios.UserRequest | src/index.test.ts:28-35 | `with("user")` without a username deduplicates by the next local index: a hit returns the cached user and changes no shared state, a miss builds the default user for that index |
| Scenarios.CreateUserRequest | src/index.ts:121-124 | `create("user")` takes the global index, and a miss builds the default user for it after a second global advance |
| Scenarios.MessageDeps | src/index.test.ts:38-39 | `from` and then `to` are requested through the nested requester's `with("user")`, when neither is supplied |
| Scenarios.FirstDepOnly | src/index.test.ts:38-39 | of two default parameters with only the first field undefined, only the first request is made and its result fills that field |
| Scenarios.SecondDepOnly | src/index.test.ts:38-39 | of two default parameters with only the second field undefined, only the second request is made, from the counter as it was |
| Scenarios.MessageDepsSupplied | src/index.test.ts:38-39 | when both `from` and `to` are supplied, nothing is requested and the input, the nested counter and the shared state are unchanged |
| Scenarios.MessageDepsToOnly | src/index.test.ts:38-39 | when only `from` is supplied, the only request is `with("user")` for `to`, from the fresh nested counter |
| Scenarios.MessageDepsFromOnly | src/index.test.ts:38-39 | when only `to` is supplied, the only request is `with("user")` for `from` |
| Scenarios.MessageRequest | src/index.test.ts:36-50 | a `with("message", { content })` miss builds `from`, then `to`, then the message, with the content unchanged |
| Scenarios.FirstMessage | src/index.test.ts:80 | the first message builds user 0, user 1 and then itself |
| Scenarios.SecondMessage | src/index.test.ts:81 | the second message's nested requester restarts at local index 0, hits users 0 and 1, and builds only the message |
| Scenarios.TwoMessagesShareUsers | src/index.test.ts:77-90 | both messages have `username0` as `from` and `username1` as `to`, keep their contents, and share the same user objects |
| Scenarios.GetAfterOneMessage | src/index.test.ts:92-104 | after one message, the user listing's positions 0 and 1 are `username0` and `username1`, and they are the message's `from` and `to` |
| Scenarios.LaterUsers | src/index.test.ts:113-114 | the two later `with("user")` calls hit users 0 and 1 and change no shared state (each still stamps its options and advances the requester's local `user` count) |
| Scenarios.BuildOrderWithLaterUsers | src/index.test.ts:106-129 | the ledger names are user, user, message, message, and its data is the users followed by the messages |
| Scenarios.CreateUserAtEnd | src/index.test.ts:131-153 | after `create("user")` the ledger names end with a third user, its data ends with that user after the messages, and the user is `username2` |
| Scripts.Setup | src/index.test.ts:11-75 | the test's setup builds distinct fresh objects, the two definitions and an empty state |
| Scripts.Request | src/index.test.ts:80 | a requester call with a fresh options literal behaves as `Engine.With` |
| Scripts.CreateRequest | src/index.test.ts:136 | a `create` call with a fresh options literal behaves as `Engine.Create` |
| Scripts.TwoMessagesScript | src/index.test.ts:77-90 | the first test's script on the real objects: both messages have the expected users and contents, and share their user objects |
| Scripts.DestructuringScript | src/index.test.ts:92-104 | the second test's script: the memoized second `get("user")` is the first one, its named entries are positions 0 and 1, and those are the message's users |
| Scripts.LaterUsersScript | src/index.test.ts:106-129 | the third test's script: ledger names and ledger data in the expected order |
| Scripts.UserAtEndScript | src/index.test.ts:131-153 | the fourth test's script: the ledger ends with the created user, which is `username2` |

## Left out

- `__mocks__/lodash.ts` and the Jest harness: they only clear memoized caches between tests. Each scenario here starts from a fresh setup.
- lodash itself: `_.memoize` becomes a map entry created on first access, `_.defaults` "set if undefined", `_.get` a single-field lookup, `_.isNil` null-or-undefined.
- `_.get` with dotted paths: keys are single field names.
- Arbitrary JavaScript factories: a factory is a datatype. It lists the default parameters `field = fixtures.with(name, options)` in order, and the fields of its object literal with constant, `prefix${index}` or no defaults. This covers both test factories.
- Factory results: a factory always returns a fresh, non-nil object literal (`Engine.Complete` allocates it). A factory returning `undefined` or `null` is not modelled: the source caches it at src/index.ts:112, and since `_.isNil` at :96 treats it as a miss, rebuilds it and appends it to the ledger again on every later request with that key. A factory returning an object it shares with another build is not modelled either. `Properties.Good` relies on both.
- Exceptions: requesting a name never defined throws a TypeError in the source. Here it is an `Err(UnknownFixture)` result that propagates up through the nested requests. Side effects made before the throw are kept.
- Cyclic definitions: every operation takes a ghost rank under which each dependency is ranked strictly below its owner (`Registry.Ranked`), so a definition that requests its own name, directly or through others, is outside the model. In the source such a cycle may recurse without bound, but it also may terminate, since a default parameter fires only when its field is undefined: a `node` factory with `parent = fixtures.with("node", { parent: null })` builds twice and stops. The rank excludes these terminating cycles too. In them both builds can resolve to the same local index, so the outer build overwrites the inner build's cache entry at src/index.ts:112; the ledger then holds both instances while the cache lists only the outer one, and the invariant `Properties.Good` (with `LedgerListsCache`) does not hold for such definitions.
- `Requester.FixtureRequester.With`: a requester whose local and global counters are the same object is not modelled (`Valid` requires them distinct, as every requester the source creates has them).
- Getter aliases: the named properties of the returned array are kept in a separate map, beside the positional items. A key string that looks like an array index would overwrite a position in JavaScript. The model does not capture that.
- Numbers are unbounded integers. Floating point, `Number.MAX_SAFE_INTEGER` and non-integer indices are out of scope.
- `Inc.Incrementer`: `fn` is a total function from integers to strings. A throwing or stateful `fn` is out of scope.
- The scenario lemmas are proved for any content strings, of which the test's `"Hi"` and `"Hello"` are instances.
