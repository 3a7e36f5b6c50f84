/** The chat test: a user factory keyed by username, a message factory that
    requests its two users, and the four scripted scenarios, stated about the
    resolution functions and proved step by step. */
module Scenarios {
  import opened Values
  import opened Registry
  import opened Counters
  import opened Cache
  import opened Ledger
  import opened Engine
  import opened Getter
  import opened Properties

  /** `userFactory`: `index = 0`, `username = \`username${index}\``,
      `password = "123456"`, and it requests nothing. */
  const UserFactory := Factory([], [FieldSpec("username", IndexTemplate("username")),
                                    FieldSpec("password", Const(Str("123456")))])

  /** `messageFactory`: `from` and then `to` default to `fixtures.with("user")`;
      `content` has no default. */
  const MessageFactory := Factory([Dep("from", "user", map[]), Dep("to", "user", map[])],
                                  [FieldSpec("from", NoDefault), FieldSpec("to", NoDefault),
                                   FieldSpec("content", NoDefault)])

  /** The test's setup: `user` keyed by `username`, `message` by the default key. */
  const TestDefs: Defs := map["user" := Definition(UserFactory, "username"), "message" := Definition(MessageFactory, IndexKey)]

  /** The setup's two `define` calls produce exactly these definitions. */
  lemma TestSetupDefines()
    ensures AddDefinition(AddDefinition(map[], "user", UserFactory, Some("username")), "message", MessageFactory, None)
            == TestDefs
  {
  }

  /** Messages request users, users request nothing. */
  const TestRank: map<string, nat> := map["user" := 0, "message" := 1]

  lemma TestDefsRanked()
    ensures Ranked(TestDefs, TestRank)
  {
  }

  /** `fixtureRequester.with` on the test's setup. */
  function ChatWith(local: Counts, opts: Record, w: World, name: string): WithOut
  {
    TestDefsRanked();
    With(TestDefs, TestRank, local, opts, w, name)
  }

  /** `fixtureRequester.create` on the test's setup. */
  function ChatCreate(opts: Record, w: World, name: string): AddOut
  {
    TestDefsRanked();
    Create(TestDefs, TestRank, opts, w, name)
  }

  /** `fixtureRequester.addFixture` on the test's setup. */
  function ChatAdd(opts: Record, w: World, name: string): AddOut
  {
    TestDefsRanked();
    AddFixture(TestDefs, TestRank, opts, w, name)
  }

  /** The default parameters of `messageFactory` that request users, run on
      the test's setup. */
  function ChatDeps(deps: seq<Dep>, local: Counts, input: Record, w: World): DepsOut
    requires forall d :: d in deps ==> d.fixture == "user"
  {
    TestDefsRanked();
    RunDeps(TestDefs, TestRank, "message", deps, local, input, w)
  }

  /** The user `userFactory` builds at index `n` when nothing is supplied. */
  function UserRecord(n: nat): Record
  {
    map["username" := Str("username" + Decimal(n)), "password" := Str("123456")]
  }

  /** The message `messageFactory` builds. */
  function MessageRecord(from: Value, to: Value, content: Value): Record
  {
    map["from" := from, "to" := to, "content" := content]
  }

  /** `userFactory` defaults the username from the index and the password to
      "123456"; a supplied username is kept. */
  lemma UserFactoryDefaults(n: nat, username: string)
    ensures Build(UserFactory.fields, map[IndexKey := Int(n)]) == UserRecord(n)
    ensures Build(UserFactory.fields, map[IndexKey := Int(n), "username" := Str(username)])
            == map["username" := Str(username), "password" := Str("123456")]
  {
  }

  /** `messageFactory` passes `from`, `to` and `content` through unchanged. */
  lemma MessageFactoryPassesThrough(opts: Record)
    ensures Build(MessageFactory.fields, opts) == MessageRecord(Get(opts, "from"), Get(opts, "to"), Get(opts, "content"))
  {
    var fields := MessageFactory.fields;
    var f, t, c := Get(opts, "from"), Get(opts, "to"), Get(opts, "content");
    assert fields[..2][..1][..0] == [];
    assert Build(fields[..2][..1], opts) == map["from" := f];
    assert Build(fields[..2], opts) == map["from" := f, "to" := t];
  }

  /** The user built for a request with no options at local index `k`. */
  function UserBuilt(w: World, k: nat): World
  {
    Complete(w.(cache := Touch(w.cache, "user"), global := NextIndex(w.global, "user").1),
             "user", Int(k), UserRecord(k))
  }

  /** A request `with("user")` with no options: it stamps the next local
      index `k` and is deduplicated by it, since no username is supplied. */
  lemma UserRequest(local: Counts, w: World)
    ensures var o := ChatWith(local, map[], w, "user");
            var cached := Lookup(BucketOf(w.cache, "user"), Int(Count(local, "user")));
            && o.local == NextIndex(local, "user").1
            && (!IsNil(cached) ==> o.result == Ok(cached) && o.world == w)
            && (IsNil(cached) ==> o.result == Ok(Obj(|w.heap|)) && o.world == UserBuilt(w, Count(local, "user")))
  {
    var k := Count(local, "user");
    var opts := map[IndexKey := Int(k)];
    assert StampIndex(local, "user", map[]) == (NextIndex(local, "user").1, opts);
    assert ResolveIdentity(TestDefs, "user", opts) == Ok(Identity(IndexKey, Int(k)));
    assert StampIndex(w.global, "user", opts) == (NextIndex(w.global, "user").1, opts);
    assert opts - {"fixtures"} == opts;
    UserFactoryDefaults(k, "");
  }

  /** A request for a user always succeeds. */
  lemma UserRequestOk(local: Counts, w: World)
    ensures ChatWith(local, map[], w, "user").result.Ok?
  {
    UserRequest(local, w);
  }

  /** A last default parameter `field = fixtures.with("user")`, on an input
      that leaves the field undefined. */
  lemma LastUserDep(field: string, local: Counts, input: Record, w: World)
    requires Get(input, field) == Undefined
    ensures var o := ChatWith(local, map[], w, "user");
            && o.result.Ok?
            && ChatDeps([Dep(field, "user", map[])], local, input, w) == DepsOut(Ok(input[field := o.result.value]), o.local, o.world)
  {
    UserRequestOk(local, w);
    TestDefsRanked();
    OneDep(TestDefs, TestRank, "message", Dep(field, "user", map[]), local, input, w);
  }

  /** A single default parameter whose field is undefined and whose request
      succeeds puts the request's result into the factory input. */
  lemma OneDep(defs: Defs, rank: map<string, nat>, owner: string, dep: Dep, local: Counts, input: Record, w: World)
    requires Ranked(defs, rank) && Measure(rank, dep.fixture) < Measure(rank, owner)
    requires Get(input, dep.field) == Undefined
    ensures var o := With(defs, rank, local, dep.options, w, dep.fixture);
            o.result.Ok? ==>
              RunDeps(defs, rank, owner, [dep], local, input, w) == DepsOut(Ok(input[dep.field := o.result.value]), o.local, o.world)
  {
    assert [dep][1..] == [];
  }

  /** Two default parameters of which only the first fires: its request's
      result goes into the input, and the second field stays as supplied. */
  lemma FirstDepOnly(defs: Defs, rank: map<string, nat>, owner: string, dep1: Dep, dep2: Dep,
                     local: Counts, input: Record, w: World)
    requires Ranked(defs, rank)
    requires Measure(rank, dep1.fixture) < Measure(rank, owner) && Measure(rank, dep2.fixture) < Measure(rank, owner)
    requires Get(input, dep1.field) == Undefined && Get(input, dep2.field) != Undefined
    ensures var o := With(defs, rank, local, dep1.options, w, dep1.fixture);
            o.result.Ok? ==>
              RunDeps(defs, rank, owner, [dep1, dep2], local, input, w) == DepsOut(Ok(input[dep1.field := o.result.value]), o.local, o.world)
  {
    var o := With(defs, rank, local, dep1.options, w, dep1.fixture);
    if o.result.Ok? {
      var input1 := input[dep1.field := o.result.value];
      assert Get(input1, dep2.field) != Undefined;
      assert [dep1, dep2][1..] == [dep2];
      SuppliedDepsSkip(defs, rank, owner, [dep2], o.local, input1, o.world);
    }
  }

  /** Two default parameters of which only the second fires. */
  lemma SecondDepOnly(defs: Defs, rank: map<string, nat>, owner: string, dep1: Dep, dep2: Dep,
                      local: Counts, input: Record, w: World)
    requires Ranked(defs, rank)
    requires Measure(rank, dep1.fixture) < Measure(rank, owner) && Measure(rank, dep2.fixture) < Measure(rank, owner)
    requires Get(input, dep1.field) != Undefined && Get(input, dep2.field) == Undefined
    ensures var o := With(defs, rank, local, dep2.options, w, dep2.fixture);
            o.result.Ok? ==>
              RunDeps(defs, rank, owner, [dep1, dep2], local, input, w) == DepsOut(Ok(input[dep2.field := o.result.value]), o.local, o.world)
  {
    assert [dep1, dep2][1..] == [dep2];
    OneDep(defs, rank, owner, dep2, local, input, w);
  }

  /** The first default parameter of the message factory, `from`, then `to`. */
  lemma FromDep(input: Record, w: World)
    requires Get(input, "from") == Undefined && Get(input, "to") == Undefined
    ensures var from := ChatWith(map[], map[], w, "user");
            && from.result.Ok?
            && ChatDeps(MessageFactory.deps, map[], input, w)
               == ChatDeps(MessageFactory.deps[1..], from.local, input["from" := from.result.value], from.world)
  {
    UserRequestOk(map[], w);
    TestDefsRanked();
  }

  /** The message factory's two default parameters, on options that give
      neither `from` nor `to`: a fresh nested requester resolves `user`
      twice, and both results land in the factory input. */
  lemma MessageDeps(input: Record, wa: World)
    requires Get(input, "from") == Undefined && Get(input, "to") == Undefined
    ensures var from := ChatWith(map[], map[], wa, "user");
            var to := ChatWith(from.local, map[], from.world, "user");
            && from.result.Ok? && to.result.Ok?
            && ChatDeps(MessageFactory.deps, map[], input, wa)
               == DepsOut(Ok(input["from" := from.result.value]["to" := to.result.value]), to.local, to.world)
  {
    FromDep(input, wa);
    var from := ChatWith(map[], map[], wa, "user");
    var input1 := input["from" := from.result.value];
    assert Get(input1, "to") == Undefined;
    assert MessageFactory.deps[1..] == [Dep("to", "user", map[])];
    LastUserDep("to", from.local, input1, from.world);
  }

  /** Options that supply both `from` and `to` make the message factory
      request nothing: the input, the nested counter and the shared state
      are left as they were. */
  lemma MessageDepsSupplied(local: Counts, input: Record, w: World)
    requires Get(input, "from") != Undefined && Get(input, "to") != Undefined
    ensures ChatDeps(MessageFactory.deps, local, input, w) == DepsOut(Ok(input), local, w)
  {
    TestDefsRanked();
    SuppliedDepsSkip(TestDefs, TestRank, "message", MessageFactory.deps, local, input, w);
  }

  /** Options that supply only `from`: the only request is the one for `to`,
      made from the fresh nested counter. */
  lemma MessageDepsToOnly(input: Record, w: World)
    requires Get(input, "from") != Undefined && Get(input, "to") == Undefined
    ensures var to := ChatWith(map[], map[], w, "user");
            && to.result.Ok?
            && ChatDeps(MessageFactory.deps, map[], input, w) == DepsOut(Ok(input["to" := to.result.value]), to.local, to.world)
  {
    UserRequestOk(map[], w);
    TestDefsRanked();
    SecondDepOnly(TestDefs, TestRank, "message", Dep("from", "user", map[]), Dep("to", "user", map[]), map[], input, w);
  }

  /** Options that supply only `to`: the only request is the one for `from`. */
  lemma MessageDepsFromOnly(input: Record, w: World)
    requires Get(input, "from") == Undefined && Get(input, "to") != Undefined
    ensures var from := ChatWith(map[], map[], w, "user");
            && from.result.Ok?
            && ChatDeps(MessageFactory.deps, map[], input, w) == DepsOut(Ok(input["from" := from.result.value]), from.local, from.world)
  {
    UserRequestOk(map[], w);
    TestDefsRanked();
    FirstDepOnly(TestDefs, TestRank, "message", Dep("from", "user", map[]), Dep("to", "user", map[]), map[], input, w);
  }

  /** The options of `with("message", { content })`: the local index is
      stamped, the key is `index`, and the global stamp changes nothing more. */
  lemma MessageOptions(local: Counts, global: Counts, content: string)
    ensures var opts := map["content" := Str(content), IndexKey := Int(Count(local, "message"))];
            && StampIndex(local, "message", map["content" := Str(content)]) == (NextIndex(local, "message").1, opts)
            && ResolveIdentity(TestDefs, "message", opts) == Ok(Identity(IndexKey, Int(Count(local, "message"))))
            && StampIndex(global, "message", opts) == (NextIndex(global, "message").1, opts)
            && opts - {"fixtures"} == opts
  {
    var opts := map["content" := Str(content), IndexKey := Int(Count(local, "message"))];
    assert Defaults(map["content" := Str(content)], Count(local, "message")) == opts;
  }

  /** A request `with("message", { content })` that misses: the factory asks a
      fresh nested requester for `from` and then `to`, and the message is
      recorded after both. */
  lemma MessageRequest(local: Counts, content: string, w: World)
    requires IsNil(Lookup(BucketOf(w.cache, "message"), Int(Count(local, "message"))))
    ensures var o := ChatWith(local, map["content" := Str(content)], w, "message");
            var wa := w.(cache := Touch(w.cache, "message"), global := NextIndex(w.global, "message").1);
            var from := ChatWith(map[], map[], wa, "user");
            var to := ChatWith(from.local, map[], from.world, "user");
            && from.result.Ok? && to.result.Ok?
            && o.local == NextIndex(local, "message").1
            && o.result == Ok(Obj(|to.world.heap|))
            && o.world == Complete(to.world, "message", Int(Count(local, "message")),
                                   MessageRecord(from.result.value, to.result.value, Str(content)))
  {
    TestDefsRanked();
    MessageOptions(local, w.global, content);
    MessageMiss(Count(local, "message"), content, w);
  }

  /** `addFixture("message", { content, index: k })` on a miss, down to the
      outcome of the factory's default parameters. */
  lemma MessageMissUnfold(k: nat, content: string, w: World)
    requires IsNil(Lookup(BucketOf(w.cache, "message"), Int(k)))
    ensures var opts := map["content" := Str(content), IndexKey := Int(k)];
            var wa := w.(cache := Touch(w.cache, "message"), global := NextIndex(w.global, "message").1);
            var d := ChatDeps(MessageFactory.deps, map[], opts, wa);
            d.result.Ok? ==>
              ChatAdd(opts, w, "message") == AddOut(Ok(Obj(|d.world.heap|)), opts, Complete(d.world, "message", Int(k), Build(MessageFactory.fields, d.result.value)))
  {
    TestDefsRanked();
    var opts := map["content" := Str(content), IndexKey := Int(k)];
    assert ResolveIdentity(TestDefs, "message", opts) == Ok(Identity(IndexKey, Int(k)));
    assert StampIndex(w.global, "message", opts) == (NextIndex(w.global, "message").1, opts);
    assert opts - {"fixtures"} == opts;
  }

  /** `addFixture("message", { content, index: k })` on a miss. */
  lemma MessageMiss(k: nat, content: string, w: World)
    requires IsNil(Lookup(BucketOf(w.cache, "message"), Int(k)))
    ensures var a := ChatAdd(map["content" := Str(content), IndexKey := Int(k)], w, "message");
            var wa := w.(cache := Touch(w.cache, "message"), global := NextIndex(w.global, "message").1);
            var from := ChatWith(map[], map[], wa, "user");
            var to := ChatWith(from.local, map[], from.world, "user");
            && from.result.Ok? && to.result.Ok?
            && a.result == Ok(Obj(|to.world.heap|))
            && a.world == Complete(to.world, "message", Int(k), MessageRecord(from.result.value, to.result.value, Str(content)))
  {
    var opts := map["content" := Str(content), IndexKey := Int(k)];
    var wa := w.(cache := Touch(w.cache, "message"), global := NextIndex(w.global, "message").1);
    MessageMissUnfold(k, content, w);
    MessageDeps(opts, wa);
    var from := ChatWith(map[], map[], wa, "user");
    var to := ChatWith(from.local, map[], from.world, "user");
    MessageInput(k, content, from.result.value, to.result.value);
  }

  /** The message built from the request's options and the two users. */
  lemma MessageInput(k: nat, content: string, from: Value, to: Value)
    ensures var opts := map["content" := Str(content), IndexKey := Int(k)];
            && Get(opts, "from") == Undefined && Get(opts, "to") == Undefined
            && Build(MessageFactory.fields, opts["from" := from]["to" := to]) == MessageRecord(from, to, Str(content))
  {
    var input := map["content" := Str(content), IndexKey := Int(k)]["from" := from]["to" := to];
    MessageFactoryPassesThrough(input);
    assert Get(input, "from") == from && Get(input, "to") == to;
    assert Get(input, "content") == Str(content);
  }

  /** A request `create("user")` with no options: the index comes from the
      global counter, which the miss path advances a second time. */
  lemma CreateUserRequest(w: World)
    ensures var o := ChatCreate(map[], w, "user");
            var k := Count(w.global, "user");
            var wg := w.(global := NextIndex(w.global, "user").1);
            var cached := Lookup(BucketOf(w.cache, "user"), Int(k));
            && (!IsNil(cached) ==> o.result == Ok(cached) && o.world == wg.(cache := Touch(w.cache, "user")))
            && (IsNil(cached) ==> o.result == Ok(Obj(|w.heap|)) && o.world == UserBuilt(wg, k))
  {
    var k := Count(w.global, "user");
    var opts := map[IndexKey := Int(k)];
    var wg := w.(global := NextIndex(w.global, "user").1);
    assert StampIndex(w.global, "user", map[]) == (wg.global, opts);
    assert ResolveIdentity(TestDefs, "user", opts) == Ok(Identity(IndexKey, Int(k)));
    assert StampIndex(wg.global, "user", opts) == (NextIndex(wg.global, "user").1, opts);
    assert opts - {"fixtures"} == opts;
    UserFactoryDefaults(k, "");
  }

  /** The two users the first message requests, in the order it requests them. */
  const UserBucket := Bucket([Int(0), Int(1)], map[Int(0) := Obj(0), Int(1) := Obj(1)])

  /** The messages cached after the first and after the second message. */
  const HiBucket := Bucket([Int(0)], map[Int(0) := Obj(2)])
  const HelloBucket := Bucket([Int(0), Int(1)], map[Int(0) := Obj(2), Int(1) := Obj(3)])

  /** The cache after the first and after the second message. */
  const HiCache: CacheState := map["message" := HiBucket, "user" := UserBucket]
  const HelloCache: CacheState := map["message" := HelloBucket, "user" := UserBucket]

  /** The state after `with("message", { content: hi })` on a fresh setup. */
  function AfterHi(hi: string): World
  {
    World(map["message" := 1, "user" := 2],
          HiCache,
          [FixtureData("user", Obj(0)), FixtureData("user", Obj(1)), FixtureData("message", Obj(2))],
          [UserRecord(0), UserRecord(1), MessageRecord(Obj(0), Obj(1), Str(hi))])
  }

  /** The state after a second `with("message", { content: hello })`. */
  function AfterHello(hi: string, hello: string): World
  {
    World(map["message" := 2, "user" := 2],
          HelloCache,
          [FixtureData("user", Obj(0)), FixtureData("user", Obj(1)),
           FixtureData("message", Obj(2)), FixtureData("message", Obj(3))],
          [UserRecord(0), UserRecord(1), MessageRecord(Obj(0), Obj(1), Str(hi)),
           MessageRecord(Obj(0), Obj(1), Str(hello))])
  }

  /** The states inside the first message: after its cache lookup and
      global stamp, after its `from` user, after its `to` user. */
  const HiStamped := World(map["message" := 1], map["message" := Empty], [], [])
  const HiFrom := World(map["message" := 1, "user" := 1],
                        map["message" := Empty, "user" := Bucket([Int(0)], map[Int(0) := Obj(0)])],
                        [FixtureData("user", Obj(0))], [UserRecord(0)])
  const HiTo := World(map["message" := 1, "user" := 2], map["message" := Empty, "user" := UserBucket],
                      [FixtureData("user", Obj(0)), FixtureData("user", Obj(1))], [UserRecord(0), UserRecord(1)])

  /** The first message's `from` user: stamped, cached under index 0, recorded. */
  lemma HiFromStep()
    ensures UserBuilt(HiStamped, 0) == HiFrom
  {
    assert Insert(Empty, Int(0), Obj(0)) == Bucket([Int(0)], map[Int(0) := Obj(0)]);
    assert CacheSet(Touch(HiStamped.cache, "user"), "user", Int(0), Obj(0)) == HiFrom.cache;
  }

  /** The first message's `to` user, cached under index 1. */
  lemma HiToStep()
    ensures UserBuilt(HiFrom, 1) == HiTo
  {
    assert Insert(Bucket([Int(0)], map[Int(0) := Obj(0)]), Int(1), Obj(1)) == UserBucket;
    assert CacheSet(Touch(HiFrom.cache, "user"), "user", Int(1), Obj(1)) == HiTo.cache;
  }

  /** The first message itself, cached under index 0. */
  lemma HiDoneStep(hi: string)
    ensures Complete(HiTo, "message", Int(0), MessageRecord(Obj(0), Obj(1), Str(hi))) == AfterHi(hi)
  {
    assert Insert(Empty, Int(0), Obj(2)) == HiBucket;
    assert CacheSet(HiTo.cache, "message", Int(0), Obj(2)) == AfterHi(hi).cache;
  }

  /** The states the first message passes through. */
  lemma HiSteps(hi: string)
    ensures Start.(cache := Touch(Start.cache, "message"), global := NextIndex(Start.global, "message").1) == HiStamped
    ensures UserBuilt(HiStamped, 0) == HiFrom
    ensures UserBuilt(HiFrom, 1) == HiTo
    ensures Complete(HiTo, "message", Int(0), MessageRecord(Obj(0), Obj(1), Str(hi))) == AfterHi(hi)
  {
    HiFromStep();
    HiToStep();
    HiDoneStep(hi);
  }

  /** The first message builds user 0 as `from`, user 1 as `to`, then itself. */
  lemma FirstMessage(hi: string)
    ensures var o := ChatWith(map[], map["content" := Str(hi)], Start, "message");
            && o.result == Ok(Obj(2))
            && o.local == map["message" := 1]
            && o.world == AfterHi(hi)
  {
    TestDefsRanked();
    HiSteps(hi);
    MessageRequest(map[], hi, Start);
    UserRequest(map[], HiStamped);
    var from := ChatWith(map[], map[], HiStamped, "user");
    assert from.local == map["user" := 1];
    UserRequest(from.local, HiFrom);
  }

  /** The state inside the second message after its global stamp: the cache
      already holds its name, so only the counter changes. */
  function HelloStamped(hi: string): World
  {
    AfterHi(hi).(global := map["message" := 2, "user" := 2])
  }

  /** The second message is cached under index 1, after the first. */
  lemma HelloCached()
    ensures CacheSet(HiCache, "message", Int(1), Obj(3)) == HelloCache
  {
    assert Insert(HiBucket, Int(1), Obj(3)) == HelloBucket;
  }

  /** The second message itself, recorded last. */
  lemma HelloDoneStep(hi: string, hello: string)
    ensures Complete(HelloStamped(hi), "message", Int(1), MessageRecord(Obj(0), Obj(1), Str(hello))) == AfterHello(hi, hello)
  {
    HelloCached();
    assert HelloStamped(hi).cache == HiCache;
    assert HelloStamped(hi).ledger + [FixtureData("message", Obj(3))] == AfterHello(hi, hello).ledger;
    assert HelloStamped(hi).heap + [MessageRecord(Obj(0), Obj(1), Str(hello))] == AfterHello(hi, hello).heap;
  }

  /** The second message's global stamp. */
  lemma HelloStampStep(hi: string)
    ensures AfterHi(hi).(cache := Touch(AfterHi(hi).cache, "message"), global := NextIndex(AfterHi(hi).global, "message").1)
            == HelloStamped(hi)
  {
  }

  /** The second message misses; its users hit. */
  lemma HelloLookups(hi: string)
    ensures IsNil(Lookup(BucketOf(AfterHi(hi).cache, "message"), Int(1)))
    ensures Lookup(BucketOf(HelloStamped(hi).cache, "user"), Int(0)) == Obj(0)
    ensures Lookup(BucketOf(HelloStamped(hi).cache, "user"), Int(1)) == Obj(1)
  {
  }

  /** The states and lookups of the second message. */
  lemma HelloSteps(hi: string, hello: string)
    ensures AfterHi(hi).(cache := Touch(AfterHi(hi).cache, "message"), global := NextIndex(AfterHi(hi).global, "message").1)
            == HelloStamped(hi)
    ensures Count(map["message" := 1], "message") == 1
    ensures NextIndex(map["message" := 1], "message").1 == map["message" := 2]
    ensures IsNil(Lookup(BucketOf(AfterHi(hi).cache, "message"), Int(1)))
    ensures Lookup(BucketOf(HelloStamped(hi).cache, "user"), Int(0)) == Obj(0)
    ensures Lookup(BucketOf(HelloStamped(hi).cache, "user"), Int(1)) == Obj(1)
    ensures Complete(HelloStamped(hi), "message", Int(1), MessageRecord(Obj(0), Obj(1), Str(hello))) == AfterHello(hi, hello)
  {
    HelloStampStep(hi);
    HelloLookups(hi);
    HelloDoneStep(hi, hello);
  }

  /** Inside the second message, its fresh nested requester asks for user
      0 and then user 1, and both are cached. */
  lemma HelloUsers(hi: string)
    ensures var from := ChatWith(map[], map[], HelloStamped(hi), "user");
            var to := ChatWith(from.local, map[], from.world, "user");
            && from.result == Ok(Obj(0)) && from.world == HelloStamped(hi)
            && to.result == Ok(Obj(1)) && to.world == HelloStamped(hi)
  {
    TestDefsRanked();
    HelloSteps(hi, "");
    UserRequest(map[], HelloStamped(hi));
    var from := ChatWith(map[], map[], HelloStamped(hi), "user");
    assert from.local == map["user" := 1];
    UserRequest(from.local, HelloStamped(hi));
  }

  /** The second message finds both users cached under local indices 0 and
      1 of its own fresh nested requester, and builds only itself. */
  lemma SecondMessage(hi: string, hello: string)
    ensures var o := ChatWith(map["message" := 1], map["content" := Str(hello)], AfterHi(hi), "message");
            && o.result == Ok(Obj(3))
            && o.local == map["message" := 2]
            && o.world == AfterHello(hi, hello)
  {
    TestDefsRanked();
    HelloSteps(hi, hello);
    var w := AfterHi(hi);
    MessageRequest(map["message" := 1], hello, w);
    HelloUsers(hi);
    var o := ChatWith(map["message" := 1], map["content" := Str(hello)], w, "message");
    assert o.world == Complete(HelloStamped(hi), "message", Int(1), MessageRecord(Obj(0), Obj(1), Str(hello)));
  }

  /** Users 0 and 1 are named `username0` and `username1`. */
  lemma UserNames(h: seq<Record>)
    requires |h| >= 2 && h[0] == UserRecord(0) && h[1] == UserRecord(1)
    ensures Field(h, Obj(0), "username") == Str("username0")
    ensures Field(h, Obj(1), "username") == Str("username1")
  {
    assert Decimal(0) == "0" && Decimal(1) == "1";
  }

  /** The named properties of a listing of users 0 and 1. */
  lemma UserAliases(h: seq<Record>)
    requires |h| >= 2 && h[0] == UserRecord(0) && h[1] == UserRecord(1)
    ensures Aliases([Obj(0), Obj(1)], "username", h) == map["username0" := Obj(0), "username1" := Obj(1)]
  {
    UserNames(h);
    assert AliasOf(h, Obj(0), "username") == "username0";
    assert AliasOf(h, Obj(1), "username") == "username1";
    assert [Obj(0), Obj(1)][..1] == [Obj(0)];
    assert [Obj(0)][..0] == [];
    assert Aliases([Obj(0)], "username", h) == map["username0" := Obj(0)];
  }

  /** The instances cached for users and for messages, in insertion order. */
  lemma Orders()
    ensures OrderedValues(UserBucket) == [Obj(0), Obj(1)]
    ensures OrderedValues(HiBucket) == [Obj(2)]
    ensures OrderedValues(HelloBucket) == [Obj(2), Obj(3)]
  {
  }

  /** What the heap holds after the two messages. */
  lemma HelloFacts(hi: string, hello: string)
    ensures var h := AfterHello(hi, hello).heap;
            && Field(h, Obj(2), "from") == Obj(0) && Field(h, Obj(2), "to") == Obj(1)
            && Field(h, Obj(3), "from") == Obj(0) && Field(h, Obj(3), "to") == Obj(1)
            && Field(h, Obj(2), "content") == Str(hi) && Field(h, Obj(3), "content") == Str(hello)
            && Field(h, Obj(0), "username") == Str("username0")
            && Field(h, Obj(1), "username") == Str("username1")
  {
    UserNames(AfterHello(hi, hello).heap);
  }

  /** `get(name)` right after the first message. */
  lemma HiViews(hi: string)
    ensures View(TestDefs, AfterHi(hi).cache, AfterHi(hi).heap, "user")
            == Ok(Listing([Obj(0), Obj(1)], map["username0" := Obj(0), "username1" := Obj(1)]))
    ensures View(TestDefs, Touch(AfterHi(hi).cache, "user"), AfterHi(hi).heap, "message") == Ok(Listing([Obj(2)], map[]))
  {
    UserAliases(AfterHi(hi).heap);
    Orders();
  }

  /** `get(name)` and the ledger after the two messages. */
  lemma HelloViews(hi: string, hello: string)
    ensures View(TestDefs, AfterHello(hi, hello).cache, AfterHello(hi, hello).heap, "user")
            == Ok(Listing([Obj(0), Obj(1)], map["username0" := Obj(0), "username1" := Obj(1)]))
    ensures View(TestDefs, AfterHello(hi, hello).cache, AfterHello(hi, hello).heap, "message")
            == Ok(Listing([Obj(2), Obj(3)], map[]))
    ensures Names(AfterHello(hi, hello).ledger) == ["user", "user", "message", "message"]
    ensures Data(AfterHello(hi, hello).ledger) == [Obj(0), Obj(1), Obj(2), Obj(3)]
  {
    UserAliases(AfterHello(hi, hello).heap);
    Orders();
  }

  /** The state after the two messages and then `create("user")`. */
  function AfterCreate(hi: string, hello: string): World
  {
    var w := AfterHello(hi, hello);
    World(map["message" := 2, "user" := 4],
          w.cache["user" := Bucket([Int(0), Int(1), Int(2)], map[Int(0) := Obj(0), Int(1) := Obj(1), Int(2) := Obj(4)])],
          w.ledger + [FixtureData("user", Obj(4))],
          w.heap + [UserRecord(2)])
  }

  lemma CreateCache(hi: string, hello: string)
    ensures CacheSet(Touch(AfterHello(hi, hello).cache, "user"), "user", Int(2), Obj(4)) == AfterCreate(hi, hello).cache
  {
    assert Insert(UserBucket, Int(2), Obj(4))
           == Bucket([Int(0), Int(1), Int(2)], map[Int(0) := Obj(0), Int(1) := Obj(1), Int(2) := Obj(4)]);
  }

  lemma CreateSteps(hi: string, hello: string)
    ensures Count(AfterHello(hi, hello).global, "user") == 2
    ensures IsNil(Lookup(BucketOf(AfterHello(hi, hello).cache, "user"), Int(2)))
    ensures UserBuilt(AfterHello(hi, hello).(global := NextIndex(AfterHello(hi, hello).global, "user").1), 2)
            == AfterCreate(hi, hello)
  {
    CreateCache(hi, hello);
  }

  /** `get(name)` and the ledger after the two messages and the created user. */
  lemma CreateViews(hi: string, hello: string)
    ensures var w := AfterCreate(hi, hello);
            && View(TestDefs, w.cache, w.heap, "user") == Ok(Listing([Obj(0), Obj(1), Obj(4)],
                                                                    map["username0" := Obj(0), "username1" := Obj(1), "username2" := Obj(4)]))
            && View(TestDefs, w.cache, w.heap, "message") == Ok(Listing([Obj(2), Obj(3)], map[]))
            && Names(w.ledger) == ["user", "user", "message", "message", "user"]
            && Data(w.ledger) == [Obj(0), Obj(1), Obj(2), Obj(3), Obj(4)]
            && Field(w.heap, Obj(4), "username") == Str("username2")
  {
    var w := AfterCreate(hi, hello);
    UserAliases(w.heap);
    Orders();
    assert Decimal(2) == "2";
    assert AliasOf(w.heap, Obj(4), "username") == "username2";
    assert [Obj(0), Obj(1), Obj(4)][..2] == [Obj(0), Obj(1)];
    assert OrderedValues(BucketOf(w.cache, "user")) == [Obj(0), Obj(1), Obj(4)];
  }

  /** What test "can be declared with only two messages" expects of the
      two messages and the state after them. */
  predicate TwoMessagesExpected(hi: string, hello: string, m1: Result<Value>, m2: Result<Value>, h: seq<Record>)
  {
    && m1.Ok? && m2.Ok?
    && Field(h, Field(h, m1.value, "from"), "username") == Str("username0")
    && Field(h, Field(h, m1.value, "to"), "username") == Str("username1")
    && Field(h, Field(h, m2.value, "from"), "username") == Str("username0")
    && Field(h, Field(h, m2.value, "to"), "username") == Str("username1")
    && Field(h, m1.value, "content") == Str(hi)
    && Field(h, m2.value, "content") == Str(hello)
  }

  /** Test "can be declared with only two messages": both messages get user
      0 as `from` and user 1 as `to`, and keep their own content. The two
      messages share the very same user objects. */
  lemma TwoMessagesShareUsers(hi: string, hello: string)
    ensures var m1 := ChatWith(map[], map["content" := Str(hi)], Start, "message");
            var m2 := ChatWith(m1.local, map["content" := Str(hello)], m1.world, "message");
            && TwoMessagesExpected(hi, hello, m1.result, m2.result, m2.world.heap)
            && Field(m2.world.heap, m1.result.value, "from") == Field(m2.world.heap, m2.result.value, "from")
            && Field(m2.world.heap, m1.result.value, "to") == Field(m2.world.heap, m2.result.value, "to")
  {
    FirstMessage(hi);
    SecondMessage(hi, hello);
    HelloFacts(hi, hello);
  }

  /** What test "can declare a message and then get fixtures by
      destructuring" expects: `get("user")` lists user 0 and user 1 by
      position and by username, and `get("message")`, called after it,
      lists the message, whose `from` and `to` are those users. */
  predicate DestructuringExpected(hi: string, w: World)
  {
    var users := View(TestDefs, w.cache, w.heap, "user");
    var messages := View(TestDefs, Touch(w.cache, "user"), w.heap, "message");
    && users == Ok(Listing([Obj(0), Obj(1)], map["username0" := Obj(0), "username1" := Obj(1)]))
    && messages == Ok(Listing([Obj(2)], map[]))
    && users.value.items[0] == users.value.named["username0"]
    && users.value.items[1] == users.value.named["username1"]
    && Field(w.heap, messages.value.items[0], "from") == users.value.items[0]
    && Field(w.heap, messages.value.items[0], "to") == users.value.items[1]
    && Field(w.heap, messages.value.items[0], "content") == Str(hi)
  }

  lemma HiExpected(hi: string)
    ensures DestructuringExpected(hi, AfterHi(hi))
  {
    HiViews(hi);
  }

  /** Test "can declare a message and then get fixtures by destructuring". */
  lemma GetAfterOneMessage(hi: string)
    ensures DestructuringExpected(hi, ChatWith(map[], map["content" := Str(hi)], Start, "message").world)
  {
    FirstMessage(hi);
    HiExpected(hi);
  }

  /** What test "has proper build order with two messages and two users"
      expects: the two requested users are the first message's, and the
      ledger lists the users, then the messages. */
  predicate LaterUsersExpected(u1: Result<Value>, u2: Result<Value>, w: World)
  {
    var users := View(TestDefs, w.cache, w.heap, "user");
    var messages := View(TestDefs, w.cache, w.heap, "message");
    && u1 == Ok(Obj(0)) && u2 == Ok(Obj(1))
    && Names(w.ledger) == ["user", "user", "message", "message"]
    && users.Ok? && messages.Ok? && |users.value.items| == 2
    && Data(w.ledger) == users.value.items + messages.value.items
  }

  lemma HelloExpected(hi: string, hello: string)
    ensures LaterUsersExpected(Ok(Obj(0)), Ok(Obj(1)), AfterHello(hi, hello))
  {
    HelloViews(hi, hello);
  }

  /** Two top-level `with("user")` after the two messages take local indices
      0 and 1 and hit the cache. */
  lemma LaterUsers(hi: string, hello: string)
    ensures var u1 := ChatWith(map["message" := 2], map[], AfterHello(hi, hello), "user");
            var u2 := ChatWith(u1.local, map[], u1.world, "user");
            && u1.result == Ok(Obj(0)) && u1.world == AfterHello(hi, hello)
            && u2.result == Ok(Obj(1)) && u2.world == AfterHello(hi, hello)
  {
    HelloSteps(hi, hello);
    UserRequest(map["message" := 2], AfterHello(hi, hello));
    assert NextIndex(map["message" := 2], "user").1 == map["message" := 2, "user" := 1];
    UserRequest(map["message" := 2, "user" := 1], AfterHello(hi, hello));
  }

  /** Test "has proper build order with two messages and two users". */
  lemma BuildOrderWithLaterUsers(hi: string, hello: string)
    ensures var m1 := ChatWith(map[], map["content" := Str(hi)], Start, "message");
            var m2 := ChatWith(m1.local, map["content" := Str(hello)], m1.world, "message");
            var u1 := ChatWith(m2.local, map[], m2.world, "user");
            var u2 := ChatWith(u1.local, map[], u1.world, "user");
            LaterUsersExpected(u1.result, u2.result, u2.world)
  {
    FirstMessage(hi);
    SecondMessage(hi, hello);
    LaterUsers(hi, hello);
    HelloExpected(hi, hello);
  }

  /** What test "has proper build order with two messages and one user at
      the end" expects: a third user, recorded last and named `username2`. */
  predicate UserAtEndExpected(c: Result<Value>, w: World)
  {
    var users := View(TestDefs, w.cache, w.heap, "user");
    var messages := View(TestDefs, w.cache, w.heap, "message");
    && c == Ok(Obj(4))
    && Names(w.ledger) == ["user", "user", "message", "message", "user"]
    && users.Ok? && messages.Ok? && |users.value.items| == 3
    && Data(w.ledger) == users.value.items[..2] + messages.value.items + [users.value.items[2]]
    && Field(w.heap, users.value.items[2], "username") == Str("username2")
  }

  lemma CreateExpected(hi: string, hello: string)
    ensures UserAtEndExpected(Ok(Obj(4)), AfterCreate(hi, hello))
  {
    CreateViews(hi, hello);
    assert [Obj(0), Obj(1), Obj(4)][..2] == [Obj(0), Obj(1)];
  }

  /** Test "has proper build order with two messages and one user at the
      end": `create` takes its index from the global counter, which the two
      users already advanced to 2, so it builds a third user. */
  lemma CreateUserAtEnd(hi: string, hello: string)
    ensures var m1 := ChatWith(map[], map["content" := Str(hi)], Start, "message");
            var m2 := ChatWith(m1.local, map["content" := Str(hello)], m1.world, "message");
            var c := ChatCreate(map[], m2.world, "user");
            UserAtEndExpected(c.result, c.world)
  {
    FirstMessage(hi);
    SecondMessage(hi, hello);
    CreateSteps(hi, hello);
    CreateUserRequest(AfterHello(hi, hello));
    CreateExpected(hi, hello);
  }
}
