/** `FixtureIndexCounter`: a count per fixture name, created at 0 on first
    use, and the stamping of a default `index` into an options object. */
module Counters {
  import opened Values

  /** The memoized `{ index }` cell of every fixture name used so far. */
  type Counts = map<string, nat>

  /** The cell of a name not used yet is created holding 0. */
  function Count(c: Counts, name: string): nat
  {
    if name in c then c[name] else 0
  }

  /** `getNewIndex`: the current count of `name` (post-increment) and the
      counts afterwards. */
  function NextIndex(c: Counts, name: string): (r: (nat, Counts))
    ensures r.0 == Count(c, name)
    ensures Count(r.1, name) == r.0 + 1
    ensures forall m :: m != name ==> Count(r.1, m) == Count(c, m)
    ensures c.Keys <= r.1.Keys
  {
    (Count(c, name), c[name := Count(c, name) + 1])
  }

  /** `_.defaults(options, { index: n })`: set `index` only where it reads as
      undefined. */
  function Defaults(opts: Record, n: nat): (r: Record)
    ensures Get(opts, "index") != Undefined ==> Get(r, "index") == Get(opts, "index")
    ensures Get(opts, "index") == Undefined ==> Get(r, "index") == Int(n)
    ensures forall f :: f != "index" ==> Get(r, f) == Get(opts, f)
    ensures r.Keys == opts.Keys + {"index"} || r == opts
  {
    if Get(opts, "index") == Undefined then opts["index" := Int(n)] else opts
  }

  /** `mutateOptions`: the argument `getNewIndex(name)` is evaluated before
      `_.defaults` runs, so the count always advances by exactly one, while
      a supplied index is never overwritten. */
  function StampIndex(c: Counts, name: string, opts: Record): (r: (Counts, Record))
    ensures Count(r.0, name) == Count(c, name) + 1
    ensures forall m :: m != name ==> Count(r.0, m) == Count(c, m)
    ensures Get(r.1, "index") ==
              if Get(opts, "index") == Undefined then Int(Count(c, name)) else Get(opts, "index")
    ensures forall f :: f != "index" ==> Get(r.1, f) == Get(opts, f)
  {
    var (n, c') := NextIndex(c, name);
    (c', Defaults(opts, n))
  }

  class IndexCounter {
    var counts: Counts

    constructor ()
      ensures counts == map[]
    {
      counts := map[];
    }

    method GetNewIndex(name: string) returns (i: nat)
      modifies this
      ensures (i, counts) == NextIndex(old(counts), name)
    {
      i := Count(counts, name);
      counts := counts[name := i + 1];
    }

    method MutateOptions(name: string, opts: Options)
      modifies this, opts
      ensures (counts, opts.fields) == StampIndex(old(counts), name, old(opts.fields))
    {
      var i := GetNewIndex(name);
      opts.fields := Defaults(opts.fields, i);
    }
  }

  /** Numbering through one counter: successive calls on one name yield
      0, 1, 2, and a second name starts again at 0. */
  method CountingScript() returns (a: nat, b: nat, c: nat, d: nat)
    ensures a == 0 && b == 1 && c == 2
    ensures d == 0
  {
    var counter := new IndexCounter();
    a := counter.GetNewIndex("user");
    b := counter.GetNewIndex("user");
    d := counter.GetNewIndex("message");
    c := counter.GetNewIndex("user");
  }

  /** Repeated `getNewIndex` calls on one name from any starting state
      yield consecutive numbers. */
  lemma {:induction false} ConsecutiveIndices(c: Counts, name: string, k: nat)
    ensures Count(Repeat(c, name, k), name) == Count(c, name) + k
    ensures forall m :: m != name ==> Count(Repeat(c, name, k), m) == Count(c, m)
  {
    if k > 0 {
      ConsecutiveIndices(c, name, k - 1);
    }
  }

  /** The counts after `k` calls of `getNewIndex(name)`. */
  function Repeat(c: Counts, name: string, k: nat): Counts
  {
    if k == 0 then c else NextIndex(Repeat(c, name, k - 1), name).1
  }
}
