/** `FixtureGetter`: a memoized, read-only view of the cache, one listing per
    fixture name. */
module Getter {
  import opened Values
  import opened Registry
  import opened Cache

  /** What `get(name)` returns: an array of the cached instances in insertion
      order and, when the name has a custom key, the named properties added
      to that array. */
  datatype Listing = Listing(items: seq<Value>, named: map<string, Value>)

  /** The named properties of the loop `values[keyValue] = value`: every
      instance under the string of its own key field, a later instance
      replacing an earlier one with the same key string. */
  function Aliases(items: seq<Value>, key: string, heap: seq<Record>): map<string, Value>
  {
    if items == [] then map[]
    else
      var last := items[|items| - 1];
      Aliases(items[..|items| - 1], key, heap)[AliasOf(heap, last, key) := last]
  }

  /** The property name an instance is reachable under. */
  function AliasOf(heap: seq<Record>, v: Value, key: string): string
  {
    ToJsString(Field(heap, v, key))
  }

  /** The listing `get(name)` computes from the cache; a name never defined fails. */
  function View(defs: Defs, cache: CacheState, heap: seq<Record>, name: string): Result<Listing>
  {
    if name !in defs then Err(UnknownFixture(name))
    else
      var items := OrderedValues(BucketOf(cache, name));
      var key := defs[name].key;
      Ok(Listing(items, if key != IndexKey then Aliases(items, key, heap) else map[]))
  }

  /** Every named property holds one of the instances, under that instance's
      own key string, and every instance's key string is a named property. */
  lemma {:induction false} AliasesSound(items: seq<Value>, key: string, heap: seq<Record>)
    ensures forall p :: p in Aliases(items, key, heap) ==>
              Aliases(items, key, heap)[p] in items && AliasOf(heap, Aliases(items, key, heap)[p], key) == p
    ensures forall i :: 0 <= i < |items| ==> AliasOf(heap, items[i], key) in Aliases(items, key, heap)
  {
    if items != [] {
      var init := items[..|items| - 1];
      AliasesSound(init, key, heap);
      assert forall v :: v in init ==> v in items;
      assert forall i :: 0 <= i < |init| ==> init[i] == items[i];
    }
  }

  /** An instance whose key string no other instance shares is reachable
      under it: positional and keyed access give the same instance. */
  lemma {:induction false} AliasesUnique(items: seq<Value>, key: string, heap: seq<Record>, i: nat)
    requires i < |items|
    requires forall j :: 0 <= j < |items| && j != i ==> AliasOf(heap, items[j], key) != AliasOf(heap, items[i], key)
    ensures AliasOf(heap, items[i], key) in Aliases(items, key, heap)
    ensures Aliases(items, key, heap)[AliasOf(heap, items[i], key)] == items[i]
  {
    var init := items[..|items| - 1];
    if i < |items| - 1 {
      assert forall j :: 0 <= j < |init| ==> init[j] == items[j];
      AliasesUnique(init, key, heap, i);
    }
  }

  class FixtureGetter {
    const dict: Dictionary
    const cache: FixtureCache
    const heap: Heap
    var memo: map<string, Listing>

    constructor (dict: Dictionary, cache: FixtureCache, heap: Heap)
      ensures this.dict == dict && this.cache == cache && this.heap == heap
      ensures memo == map[]
    {
      this.dict := dict;
      this.cache := cache;
      this.heap := heap;
      memo := map[];
    }

    /** `get(name)`: the first successful call per name computes the listing
        and keeps it; later calls return the kept listing even if the cache
        has grown since. */
    method Get(name: string) returns (r: Result<Listing>)
      modifies this, cache
      ensures name in old(memo) ==>
                r == Ok(old(memo)[name]) && memo == old(memo) && cache.buckets == old(cache.buckets)
      ensures name !in old(memo) ==>
                && r == View(dict.defs, old(cache.buckets), heap.objects, name)
                && cache.buckets == Touch(old(cache.buckets), name)
                && memo == if r.Ok? then old(memo)[name := r.value] else old(memo)
    {
      if name in memo {
        return Ok(memo[name]);
      }
      var values := cache.ValuesOf(name);
      if name !in dict.defs {
        return Err(UnknownFixture(name));
      }
      var key := dict.defs[name].key;
      var named := map[];
      if key != IndexKey {
        var i := 0;
        while i < |values|
          invariant 0 <= i <= |values|
          invariant named == Aliases(values[..i], key, heap.objects)
        {
          assert values[..i + 1][..i] == values[..i];
          named := named[AliasOf(heap.objects, values[i], key) := values[i]];
          i := i + 1;
        }
        assert values[..|values|] == values;
      }
      r := Ok(Listing(values, named));
      memo := memo[name := r.value];
    }
  }
}
