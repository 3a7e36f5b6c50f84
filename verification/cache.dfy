/** `FixtureCache`: fixture name to a JavaScript `Map` from key value to
    instance. The inner maps are created lazily, on first access, by
    `_.memoize`. */
module Cache {
  import opened Values

  /** A JavaScript `Map`: its keys in insertion order and their values. */
  datatype Bucket = Bucket(keys: seq<Value>, entries: map<Value, Value>)

  const Empty := Bucket([], map[])

  /** Each key is listed once, and exactly the keys with entries are listed. */
  ghost predicate WellFormed(b: Bucket)
  {
    && (forall i, j :: 0 <= i < j < |b.keys| ==> b.keys[i] != b.keys[j])
    && (forall k :: k in b.entries <==> k in b.keys)
  }

  /** `Map.get`: undefined for a missing key. */
  function Lookup(b: Bucket, k: Value): Value
  {
    if k in b.entries then b.entries[k] else Undefined
  }

  /** `Map.set`: a new key goes to the end, an existing key keeps its place. */
  function Insert(b: Bucket, k: Value, v: Value): (r: Bucket)
    ensures WellFormed(b) ==> WellFormed(r)
    ensures Lookup(r, k) == v
    ensures forall k' :: k' != k ==> Lookup(r, k') == Lookup(b, k')
    ensures k !in b.entries ==> r.keys == b.keys + [k]
    ensures k in b.entries ==> r.keys == b.keys
  {
    Bucket(if k in b.entries then b.keys else b.keys + [k], b.entries[k := v])
  }

  /** `Array.from(map.values())`: the values in key insertion order. */
  function OrderedValues(b: Bucket): (r: seq<Value>)
    ensures |r| == |b.keys|
  {
    seq(|b.keys|, i requires 0 <= i < |b.keys| => Lookup(b, b.keys[i]))
  }

  /** Adding a new key appends its value to the values, keeping the others
      in place. */
  lemma InsertNewValues(b: Bucket, k: Value, v: Value)
    requires WellFormed(b) && k !in b.entries
    ensures OrderedValues(Insert(b, k, v)) == OrderedValues(b) + [v]
  {
    var r := Insert(b, k, v);
    forall i | 0 <= i < |b.keys|
      ensures OrderedValues(r)[i] == OrderedValues(b)[i]
    {
      assert b.keys[i] in b.entries;
    }
  }

  /** The inner maps of all fixture names accessed so far. */
  type CacheState = map<string, Bucket>

  /** The inner map of a name; one not accessed yet is still empty. */
  function BucketOf(c: CacheState, name: string): Bucket
  {
    if name in c then c[name] else Empty
  }

  /** `fixtureCache.map(name)`: creates the inner map on first access. */
  function Touch(c: CacheState, name: string): (r: CacheState)
    ensures name in r && BucketOf(r, name) == BucketOf(c, name)
    ensures forall n :: n != name ==> (n in r <==> n in c) && BucketOf(r, n) == BucketOf(c, n)
  {
    if name in c then c else c[name := Empty]
  }

  /** `fixtureCache.map(name).set(k, v)`. */
  function CacheSet(c: CacheState, name: string, k: Value, v: Value): (r: CacheState)
    ensures name in r && BucketOf(r, name) == Insert(BucketOf(c, name), k, v)
    ensures forall n :: n != name ==> (n in r <==> n in c) && BucketOf(r, n) == BucketOf(c, n)
  {
    c[name := Insert(BucketOf(c, name), k, v)]
  }

  class FixtureCache {
    var buckets: CacheState

    constructor ()
      ensures buckets == map[]
    {
      buckets := map[];
    }

    /** `map(name).get(k)` */
    method Get(name: string, k: Value) returns (v: Value)
      modifies this
      ensures buckets == Touch(old(buckets), name)
      ensures v == Lookup(BucketOf(old(buckets), name), k)
    {
      if name !in buckets {
        buckets := buckets[name := Empty];
      }
      v := Lookup(buckets[name], k);
    }

    /** `map(name).set(k, v)` */
    method Set(name: string, k: Value, v: Value)
      modifies this
      ensures buckets == CacheSet(old(buckets), name, k, v)
    {
      if name !in buckets {
        buckets := buckets[name := Empty];
      }
      buckets := buckets[name := Insert(buckets[name], k, v)];
    }

    /** `Array.from(map(name).values())` */
    method ValuesOf(name: string) returns (vs: seq<Value>)
      modifies this
      ensures buckets == Touch(old(buckets), name)
      ensures vs == OrderedValues(BucketOf(old(buckets), name))
    {
      if name !in buckets {
        buckets := buckets[name := Empty];
      }
      vs := OrderedValues(buckets[name]);
    }
  }
}
