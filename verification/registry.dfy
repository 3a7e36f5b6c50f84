/** `FixtureDictionary` and `FixtureKey`: the registered factories, their
    identity keys, and the choice of the key a request is deduplicated by. */
module Registry {
  import opened Values

  /** The identity key of a definition that names none, and the options
      field every request carries. */
  const IndexKey := "index"

  /** The default a factory's destructuring gives one field of its result. */
  datatype Default =
    | NoDefault                 // no default: the field reads as undefined
    | Const(v: Value)           // `field = <constant>`
    | IndexTemplate(prefix: string) // `field = \`<prefix>${index}\`` with `index = 0`

  /** One field of the object literal a factory returns, taken from the
      options when they supply it and from the default otherwise. */
  datatype FieldSpec = FieldSpec(field: string, dflt: Default)

  /** A default parameter `field = fixtures.with(fixture, options)`: evaluated,
      in order, only when the options leave `field` undefined. */
  datatype Dep = Dep(field: string, fixture: string, options: Record)

  /** A factory: the dependency requests it issues through the nested
      requester, then the object literal it builds. */
  datatype Factory = Factory(deps: seq<Dep>, fields: seq<FieldSpec>)

  datatype Definition = Definition(factory: Factory, key: string)

  type Defs = map<string, Definition>

  /** The value and key name a request is deduplicated by. */
  datatype Identity = Identity(key: string, value: Value)

  function DefaultValue(d: Default, opts: Record): Value
  {
    match d
    case NoDefault => Undefined
    case Const(v) => v
    case IndexTemplate(prefix) =>
      var index := if Get(opts, IndexKey) == Undefined then Int(0) else Get(opts, IndexKey);
      Str(prefix + ToJsString(index))
  }

  /** The object a factory returns from its (dependency-completed) options:
      every listed field, and a value the options supply is passed through
      unchanged. */
  function Build(fields: seq<FieldSpec>, opts: Record): (r: Record)
    ensures forall i :: 0 <= i < |fields| ==> fields[i].field in r
    ensures forall f :: f in r ==> exists i :: 0 <= i < |fields| && fields[i].field == f
    ensures forall f :: f in r && Get(opts, f) != Undefined ==> r[f] == Get(opts, f)
  {
    if fields == [] then map[]
    else
      var last := fields[|fields| - 1];
      var v := if Get(opts, last.field) != Undefined then Get(opts, last.field) else DefaultValue(last.dflt, opts);
      Build(fields[..|fields| - 1], opts)[last.field := v]
  }

  /** `FixtureKey.get`: the registered key when the options give it a value,
      otherwise `index`. An undefined fixture name fails. */
  function ResolveIdentity(defs: Defs, name: string, opts: Record): (r: Result<Identity>)
    ensures r.Ok? <==> name in defs
    ensures r.Err? ==> r.error == UnknownFixture(name)
    ensures r.Ok? ==> r.value.value == Get(opts, r.value.key)
    ensures r.Ok? ==>
              (r.value.key == defs[name].key <==> (Get(opts, defs[name].key) != Undefined || defs[name].key == IndexKey))
    ensures r.Ok? && r.value.key != defs[name].key ==> r.value.key == IndexKey
  {
    if name !in defs then Err(UnknownFixture(name))
    else
      var key := defs[name].key;
      var value := Get(opts, key);
      if value == Undefined then Ok(Identity(IndexKey, Get(opts, IndexKey)))
      else Ok(Identity(key, value))
  }

  /** `define`: the key defaults to `index`, and a later definition of the
      same name replaces the earlier one. */
  function AddDefinition(defs: Defs, name: string, factory: Factory, key: Option<string>): (r: Defs)
    ensures r.Keys == defs.Keys + {name}
    ensures r[name].factory == factory
    ensures r[name].key == (if key.Some? then key.value else IndexKey)
    ensures forall n :: n in defs && n != name ==> r[n] == defs[n]
  {
    defs[name := Definition(factory, if key.Some? then key.value else IndexKey)]
  }

  /** `FixtureDictionary.factory`: fails on a name never defined. */
  function FactoryOf(defs: Defs, name: string): (r: Result<Factory>)
    ensures r.Ok? <==> name in defs
    ensures r.Ok? ==> r.value == defs[name].factory
  {
    if name in defs then Ok(defs[name].factory) else Err(UnknownFixture(name))
  }

  /** A rank under which every factory only requests fixtures of strictly
      lower rank: the definitions form no cycle, so requests terminate. */
  ghost predicate Ranked(defs: Defs, rank: map<string, nat>)
  {
    forall n :: n in defs ==>
      n in rank &&
      forall d :: d in defs[n].factory.deps ==> d.fixture in rank && rank[d.fixture] < rank[n]
  }

  /** Defining a name without a key makes its requests deduplicate by index;
      redefining it replaces the factory and the key. */
  lemma DefineThenResolve(defs: Defs, name: string, f1: Factory, k1: Option<string>, f2: Factory, opts: Record)
    ensures ResolveIdentity(AddDefinition(defs, name, f2, None), name, opts) == Ok(Identity(IndexKey, Get(opts, IndexKey)))
    ensures FactoryOf(AddDefinition(AddDefinition(defs, name, f1, k1), name, f2, None), name) == Ok(f2)
    ensures ResolveIdentity(AddDefinition(AddDefinition(defs, name, f1, k1), name, f2, None), name, opts)
              == Ok(Identity(IndexKey, Get(opts, IndexKey)))
  {
  }

  /** With a custom key supplied in the options, requests deduplicate by it. */
  lemma CustomKeyResolves(defs: Defs, name: string, f: Factory, key: string, opts: Record)
    requires Get(opts, key) != Undefined
    ensures ResolveIdentity(AddDefinition(defs, name, f, Some(key)), name, opts) == Ok(Identity(key, Get(opts, key)))
  {
  }

  /** The registry object; definitions are replaced in place. */
  class Dictionary {
    var defs: Defs

    constructor ()
      ensures defs == map[]
    {
      defs := map[];
    }

    method Define(name: string, factory: Factory, key: Option<string>)
      modifies this
      ensures defs == AddDefinition(old(defs), name, factory, key)
    {
      defs := defs[name := Definition(factory, if key.Some? then key.value else IndexKey)];
    }
  }
}
