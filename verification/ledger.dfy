/** `FixtureGraphRequester`: the append-only build ledger `toBuild`. */
module Ledger {
  import opened Values

  /** One ledger entry: the fixture name and the instance built for it. */
  datatype FixtureData = FixtureData(name: string, data: Value)

  /** The instances the ledger records for one fixture name, in build order. */
  function BuiltFor(ledger: seq<FixtureData>, name: string): seq<Value>
  {
    if ledger == [] then []
    else
      var rest := BuiltFor(ledger[..|ledger| - 1], name);
      var last := ledger[|ledger| - 1];
      if last.name == name then rest + [last.data] else rest
  }

  /** `BuiltFor` lists a value exactly when the ledger holds an entry of
      that name with that value. */
  lemma {:induction false} BuiltForMembers(ledger: seq<FixtureData>, name: string)
    ensures forall v :: v in BuiltFor(ledger, name) <==> FixtureData(name, v) in ledger
  {
    if ledger != [] {
      var init := ledger[..|ledger| - 1];
      BuiltForMembers(init, name);
      assert ledger == init + [ledger[|ledger| - 1]];
    }
  }

  /** The names of the ledger's entries, `toBuild.map((data) => data.name)`. */
  function Names(ledger: seq<FixtureData>): (r: seq<string>)
    ensures |r| == |ledger|
    ensures forall i :: 0 <= i < |ledger| ==> r[i] == ledger[i].name
  {
    seq(|ledger|, i requires 0 <= i < |ledger| => ledger[i].name)
  }

  /** The instances of the ledger's entries, `toBuild.map((data) => data.data)`. */
  function Data(ledger: seq<FixtureData>): (r: seq<Value>)
    ensures |r| == |ledger|
    ensures forall i :: 0 <= i < |ledger| ==> r[i] == ledger[i].data
  {
    seq(|ledger|, i requires 0 <= i < |ledger| => ledger[i].data)
  }

  /** The entries of `data` whose entry at the same position in `names` is
      `name`, in order. */
  function Select(names: seq<string>, data: seq<Value>, name: string): seq<Value>
    requires |names| == |data|
  {
    if names == [] then []
    else
      var rest := Select(names[..|names| - 1], data[..|data| - 1], name);
      if names[|names| - 1] == name then rest + [data[|data| - 1]] else rest
  }

  /** Reading `toBuild.map(d => d.name)` and `toBuild.map(d => d.data)`
      side by side and keeping the instances named `name` gives exactly the
      instances the ledger records for `name`, in build order. */
  lemma {:induction false} SelectNamesData(ledger: seq<FixtureData>, name: string)
    ensures Select(Names(ledger), Data(ledger), name) == BuiltFor(ledger, name)
  {
    if ledger != [] {
      var init := ledger[..|ledger| - 1];
      SelectNamesData(init, name);
      assert Names(ledger)[..|ledger| - 1] == Names(init);
      assert Data(ledger)[..|ledger| - 1] == Data(init);
    }
  }

  class FixtureGraphRequester {
    var toBuild: seq<FixtureData>

    constructor ()
      ensures toBuild == []
    {
      toBuild := [];
    }

    /** `with(name, data)`: record one built instance. */
    method With(name: string, data: Value)
      modifies this
      ensures toBuild == old(toBuild) + [FixtureData(name, data)]
    {
      toBuild := toBuild + [FixtureData(name, data)];
    }
  }
}
