/** The four scenarios of the chat test as the call scripts the test runs:
    the setup builds the real objects, and each script's results are proved
    to be what the test expects. */
module Scripts {
  import opened Values
  import opened Registry
  import opened Counters
  import opened Cache
  import opened Ledger
  import Engine
  import opened Getter
  import opened Requester
  import opened Scenarios

  /** `setup()`: the dictionary with both definitions, a requester with its
      own local and global counters, the cache, the ledger and a getter. */
  method Setup() returns (requester: FixtureRequester, getter: FixtureGetter)
    ensures fresh(requester) && fresh(requester.local) && fresh(requester.global)
    ensures fresh(requester.cache) && fresh(requester.ledger) && fresh(requester.heap)
    ensures requester.Valid() && requester.dict.defs == TestDefs
    ensures requester.local.counts == map[] && requester.Shared() == Engine.Start
    ensures getter.dict == requester.dict && getter.cache == requester.cache && getter.heap == requester.heap
    ensures getter.memo == map[]
  {
    var dict := new Dictionary();
    dict.Define("user", UserFactory, Some("username"));
    dict.Define("message", MessageFactory, None);
    TestSetupDefines();
    var cache := new FixtureCache();
    var ledger := new FixtureGraphRequester();
    var heap := new Heap();
    var local := new IndexCounter();
    var global := new IndexCounter();
    requester := new FixtureRequester(dict, local, global, cache, ledger, heap);
    getter := new FixtureGetter(dict, cache, heap);
  }

  /** `fixtureRequester.with(name, options)` with a fresh options object. */
  method Request(requester: FixtureRequester, name: string, opts: Record) returns (r: Result<Value>)
    requires requester.Valid() && requester.dict.defs == TestDefs
    modifies requester.local, requester.global, requester.cache, requester.ledger, requester.heap
    ensures var o := ChatWith(old(requester.local.counts), opts, old(requester.Shared()), name);
            && r == o.result && requester.local.counts == o.local && requester.Shared() == o.world
  {
    TestDefsRanked();
    var options := new Options(opts);
    r := requester.With(name, options, TestRank);
  }

  /** Test "can be declared with only two messages". */
  method TwoMessagesScript(hi: string, hello: string) returns (m1: Result<Value>, m2: Result<Value>, heap: seq<Record>)
    ensures TwoMessagesExpected(hi, hello, m1, m2, heap)
    ensures Field(heap, m1.value, "from") == Field(heap, m2.value, "from")
    ensures Field(heap, m1.value, "to") == Field(heap, m2.value, "to")
  {
    var requester, getter := Setup();
    m1 := Request(requester, "message", map["content" := Str(hi)]);
    m2 := Request(requester, "message", map["content" := Str(hello)]);
    heap := requester.heap.objects;
    TwoMessagesShareUsers(hi, hello);
  }

  /** `fixtureRequester.create(name, options)` with a fresh options object. */
  method CreateRequest(requester: FixtureRequester, name: string, opts: Record) returns (r: Result<Value>)
    requires requester.Valid() && requester.dict.defs == TestDefs
    modifies requester.global, requester.cache, requester.ledger, requester.heap
    ensures var o := ChatCreate(opts, old(requester.Shared()), name);
            && r == o.result && requester.Shared() == o.world
            && requester.local.counts == old(requester.local.counts)
  {
    TestDefsRanked();
    var options := new Options(opts);
    r := requester.Create(name, options, TestRank);
  }

  /** Test "can declare a message and then get fixtures by destruturing
      array": positions 0 and 1 of the users listing are the instances the
      memoized second listing names `username0` and `username1`, and they
      are the message's `from` and `to`. */
  method DestructuringScript(hi: string)
    returns (users: Result<Listing>, usersAgain: Result<Listing>, messages: Result<Listing>, heap: seq<Record>)
    ensures users.Ok? && usersAgain.Ok? && messages.Ok?
    ensures usersAgain == users
    ensures |users.value.items| == 2 && |messages.value.items| == 1
    ensures "username0" in usersAgain.value.named && "username1" in usersAgain.value.named
    ensures users.value.items[0] == usersAgain.value.named["username0"]
    ensures users.value.items[1] == usersAgain.value.named["username1"]
    ensures Field(heap, messages.value.items[0], "from") == users.value.items[0]
    ensures Field(heap, messages.value.items[0], "to") == users.value.items[1]
    ensures Field(heap, messages.value.items[0], "content") == Str(hi)
  {
    var requester, getter := Setup();
    OneMessage(requester, hi);
    HiViews(hi);
    users := getter.Get("user");
    usersAgain := getter.Get("user");
    messages := getter.Get("message");
    heap := requester.heap.objects;
    HiExpected(hi);
  }

  /** Test "has proper build order with two messages and two users": the
      ledger records the two users, then the two messages, and the later
      user requests build nothing. */
  method LaterUsersScript(hi: string, hello: string)
    returns (names: seq<string>, data: seq<Value>, users: Result<Listing>, messages: Result<Listing>)
    ensures users.Ok? && messages.Ok? && |users.value.items| == 2
    ensures names == ["user", "user", "message", "message"]
    ensures data == users.value.items + messages.value.items
  {
    var requester, getter := Setup();
    TwoMessages(requester, hi, hello);
    TwoUsers(requester, hi, hello);
    HelloExpected(hi, hello);
    users, messages := Listings(getter, requester.Shared());
    names := Names(requester.ledger.toBuild);
    data := Data(requester.ledger.toBuild);
  }

  /** Test "has proper build order with two messages and one user at the
      end": `create("user")` builds a third user, recorded last, named
      `username2`. */
  method UserAtEndScript(hi: string, hello: string)
    returns (names: seq<string>, data: seq<Value>, users: Result<Listing>, messages: Result<Listing>, heap: seq<Record>)
    ensures users.Ok? && messages.Ok? && |users.value.items| == 3
    ensures names == ["user", "user", "message", "message", "user"]
    ensures data == users.value.items[..2] + messages.value.items + [users.value.items[2]]
    ensures Field(heap, users.value.items[2], "username") == Str("username2")
  {
    var requester, getter := Setup();
    TwoMessages(requester, hi, hello);
    CreateLastUser(requester, hi, hello);
    CreateExpected(hi, hello);
    users, messages := Listings(getter, requester.Shared());
    names := Names(requester.ledger.toBuild);
    data := Data(requester.ledger.toBuild);
    heap := requester.heap.objects;
  }

  /** The first `with("message")` call of a test. */
  method OneMessage(requester: FixtureRequester, hi: string)
    requires requester.Valid() && requester.dict.defs == TestDefs
    requires requester.local.counts == map[] && requester.Shared() == Engine.Start
    modifies requester.local, requester.global, requester.cache, requester.ledger, requester.heap
    ensures requester.local.counts == map["message" := 1] && requester.Shared() == AfterHi(hi)
  {
    var m := Request(requester, "message", map["content" := Str(hi)]);
    FirstMessage(hi);
  }

  /** The two `with("message")` calls every build-order test starts with. */
  method TwoMessages(requester: FixtureRequester, hi: string, hello: string)
    requires requester.Valid() && requester.dict.defs == TestDefs
    requires requester.local.counts == map[] && requester.Shared() == Engine.Start
    modifies requester.local, requester.global, requester.cache, requester.ledger, requester.heap
    ensures requester.local.counts == map["message" := 2] && requester.Shared() == AfterHello(hi, hello)
  {
    var m1 := Request(requester, "message", map["content" := Str(hi)]);
    FirstMessage(hi);
    var m2 := Request(requester, "message", map["content" := Str(hello)]);
    SecondMessage(hi, hello);
  }

  /** `get("user")` and then `get("message")` on a fresh getter. */
  method Listings(getter: FixtureGetter, ghost w: Engine.World) returns (users: Result<Listing>, messages: Result<Listing>)
    requires getter.memo == map[] && getter.dict.defs == TestDefs
    requires getter.cache.buckets == w.cache && getter.heap.objects == w.heap
    modifies getter, getter.cache
    ensures users == View(TestDefs, w.cache, w.heap, "user")
    ensures messages == View(TestDefs, w.cache, w.heap, "message")
  {
    users := getter.Get("user");
    messages := getter.Get("message");
  }

  /** The two top-level `with("user")` calls after the two messages. */
  method TwoUsers(requester: FixtureRequester, hi: string, hello: string)
    requires requester.Valid() && requester.dict.defs == TestDefs
    requires requester.local.counts == map["message" := 2] && requester.Shared() == AfterHello(hi, hello)
    modifies requester.local, requester.global, requester.cache, requester.ledger, requester.heap
    ensures requester.Shared() == AfterHello(hi, hello)
  {
    var u1 := Request(requester, "user", map[]);
    var u2 := Request(requester, "user", map[]);
    LaterUsers(hi, hello);
  }

  /** `create("user")` after the two messages. */
  method CreateLastUser(requester: FixtureRequester, hi: string, hello: string)
    requires requester.Valid() && requester.dict.defs == TestDefs
    requires requester.Shared() == AfterHello(hi, hello)
    modifies requester.local, requester.global, requester.cache, requester.ledger, requester.heap
    ensures requester.Shared() == AfterCreate(hi, hello)
  {
    var c := CreateRequest(requester, "user", map[]);
    CreateSteps(hi, hello);
    CreateUserRequest(AfterHello(hi, hello));
  }
}
