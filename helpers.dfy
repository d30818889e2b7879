/** charmhelpers.core.services.helpers: `RelationContext`, which gathers the
    settings of every related unit that carries the required keys, and the
    context merge of `TemplateCallback`. */
module ServiceHelpers {
  import opened Wrappers
  import opened Text

  /** The settings of one unit on a relation, as `relation-get` returns
      them: key/value pairs in the dict's iteration order. Keys are assumed
      unique, as in a dict; were one repeated, `Lookup` would read its
      first pair. */
  type UnitData = seq<(string, string)>

  function Keys(u: UnitData): set<string>
  {
    set i | 0 <= i < |u| :: u[i].0
  }

  /** `u[key]`: the value of the first pair with that key. */
  function Lookup(u: UnitData, key: string): (r: Option<string>)
    ensures r.Some? <==> key in Keys(u)
  {
    if u == [] then None
    else if u[0].0 == key then Some(u[0].1)
    else
      assert Keys(u) == {u[0].0} + Keys(u[1..]);
      Lookup(u[1..], key)
  }

  /** `_is_ready(unit_data)`: the unit's keys are a superset of the required
      keys. */
  predicate IsReadyUnit(requiredKeys: seq<string>, u: UnitData)
  {
    (set k | k in requiredKeys) <= Keys(u)
  }

  /** A unit is complete exactly when it holds every required key; with no
      required keys every unit is. */
  lemma IsReadyUnitIff(requiredKeys: seq<string>, u: UnitData)
    ensures IsReadyUnit(requiredKeys, u) <==> forall k :: k in requiredKeys ==> Lookup(u, k).Some?
    ensures requiredKeys == [] ==> IsReadyUnit(requiredKeys, u)
  {
  }

  /** What the Juju hook tools report while a hook runs: the relation ids of
      each relation name, the units of each relation id, and the settings
      of each (relation id, unit). `relation-get` gives None for a pair
      that has no settings. */
  datatype Env = Env(
    relationIds: map<string, seq<string>>,
    relatedUnits: map<string, seq<string>>,
    settings: map<(string, string), UnitData>)

  function RelationIds(env: Env, name: string): seq<string>
  {
    if name in env.relationIds then env.relationIds[name] else []
  }

  function RelatedUnits(env: Env, rid: string): seq<string>
  {
    if rid in env.relatedUnits then env.relatedUnits[rid] else []
  }

  /** `_is_ready(None)` fails: None has no `keys`. */
  const NoneHasNoKeys := AttributeError("keys")

  /** The complete units among `units` of relation `rid`, in order; fails
      at the first unit without settings. */
  function CollectUnits(env: Env, rid: string, units: seq<string>, requiredKeys: seq<string>): (r: Result<seq<UnitData>, Error>)
    ensures r.Failure? ==> r.error == NoneHasNoKeys
  {
    if units == [] then Success([])
    else
      match CollectUnits(env, rid, units[..|units| - 1], requiredKeys)
      case Failure(e) => Failure(e)
      case Success(us) =>
        var unit := units[|units| - 1];
        if (rid, unit) !in env.settings then Failure(NoneHasNoKeys)
        else
          var d := env.settings[(rid, unit)];
          Success(if IsReadyUnit(requiredKeys, d) then us + [d] else us)
  }

  /** The complete units of relation `rid`, its units taken in sorted order. */
  function RelationUnits(env: Env, rid: string, requiredKeys: seq<string>): Result<seq<UnitData>, Error>
  {
    CollectUnits(env, rid, Sort(RelatedUnits(env, rid)), requiredKeys)
  }

  /** The complete units of each relation id of `rids` in turn, the units of
      one id taken in sorted order. */
  function CollectRelations(env: Env, rids: seq<string>, requiredKeys: seq<string>): (r: Result<seq<UnitData>, Error>)
    ensures r.Failure? ==> r.error == NoneHasNoKeys
  {
    if rids == [] then Success([])
    else
      match CollectRelations(env, rids[..|rids| - 1], requiredKeys)
      case Failure(e) => Failure(e)
      case Success(us) =>
        match RelationUnits(env, rids[|rids| - 1], requiredKeys)
        case Failure(e) => Failure(e)
        case Success(vs) => Success(us + vs)
  }

  /** The list `get_data` appends under `name`: complete units by sorted
      relation id, then by sorted unit name. */
  function Collected(env: Env, name: string, requiredKeys: seq<string>): Result<seq<UnitData>, Error>
  {
    CollectRelations(env, Sort(RelationIds(env, name)), requiredKeys)
  }

  lemma {:induction false} CollectUnitsFailureExtends(env: Env, rid: string, units: seq<string>, k: nat, requiredKeys: seq<string>)
    requires k <= |units| && CollectUnits(env, rid, units[..k], requiredKeys).Failure?
    ensures CollectUnits(env, rid, units, requiredKeys).Failure?
    decreases |units| - k
  {
    if k < |units| {
      assert units[..k + 1][..k] == units[..k];
      CollectUnitsFailureExtends(env, rid, units, k + 1, requiredKeys);
    } else {
      assert units[..k] == units;
    }
  }

  lemma {:induction false} CollectRelationsFailureExtends(env: Env, rids: seq<string>, k: nat, requiredKeys: seq<string>)
    requires k <= |rids| && CollectRelations(env, rids[..k], requiredKeys).Failure?
    ensures CollectRelations(env, rids, requiredKeys).Failure?
    decreases |rids| - k
  {
    if k < |rids| {
      assert rids[..k + 1][..k] == rids[..k];
      CollectRelationsFailureExtends(env, rids, k + 1, requiredKeys);
    } else {
      assert rids[..k] == rids;
    }
  }

  /** One step of the outer loop of `get_data`: the units of `rids[i]`
      extend the collection, or its failure fails the whole collection. */
  lemma CollectRelationsStep(env: Env, rids: seq<string>, i: nat, requiredKeys: seq<string>, acc: seq<UnitData>)
    requires i < |rids| && CollectRelations(env, rids[..i], requiredKeys) == Success(acc)
    ensures RelationUnits(env, rids[i], requiredKeys).Success? ==>
      CollectRelations(env, rids[..i + 1], requiredKeys) == Success(acc + RelationUnits(env, rids[i], requiredKeys).value)
    ensures RelationUnits(env, rids[i], requiredKeys).Failure? ==> CollectRelations(env, rids, requiredKeys).Failure?
  {
    assert rids[..i + 1][..i] == rids[..i];
    if RelationUnits(env, rids[i], requiredKeys).Failure? {
      CollectRelationsFailureExtends(env, rids, i + 1, requiredKeys);
    }
  }

  /** `self.get(name, [])`. */
  function StoredUnits(data: map<string, seq<UnitData>>, name: string): seq<UnitData>
  {
    if name in data then data[name] else []
  }

  /** `is_ready()`: the list under `name` is non-empty. */
  predicate Ready(data: map<string, seq<UnitData>>, name: string)
  {
    |StoredUnits(data, name)| > 0
  }

  /** The dict a fresh `RelationContext` holds once `__init__` has run
      `get_data`: empty when `name` has no relation ids, else `name` bound
      to the collected units. */
  function FreshContext(env: Env, name: string, requiredKeys: seq<string>): Result<map<string, seq<UnitData>>, Error>
  {
    if RelationIds(env, name) == [] then Success(map[])
    else
      match Collected(env, name, requiredKeys)
      case Failure(e) => Failure(e)
      case Success(us) => Success(map[name := us])
  }

  /** A relation context: a dict from the relation name to the list of
      complete units. */
  class RelationContext {
    const name: string
    const interface: string
    const requiredKeys: seq<string>
    var data: map<string, seq<UnitData>>

    constructor (name: string, interface: string, requiredKeys: seq<string>, data: map<string, seq<UnitData>>)
      ensures this.name == name && this.interface == interface && this.requiredKeys == requiredKeys
      ensures this.data == data
    {
      this.name := name;
      this.interface := interface;
      this.requiredKeys := requiredKeys;
      this.data := data;
    }

    /** `get_data()`: nothing when `name` has no relation ids; otherwise
        `setdefault(name, [])`, then appends every complete unit, relation
        ids and units each in sorted order. */
    method GetData(env: Env) returns (r: Outcome<Error>)
      modifies this
      ensures RelationIds(env, name) == [] ==> r == Pass && data == old(data)
      ensures RelationIds(env, name) != [] && Collected(env, name, requiredKeys).Success? ==>
        r == Pass && data == old(data)[name := StoredUnits(old(data), name) + Collected(env, name, requiredKeys).value]
      ensures RelationIds(env, name) != [] && Collected(env, name, requiredKeys).Failure? ==>
        r == Fail(NoneHasNoKeys) && data.Keys == old(data).Keys + {name} &&
        forall k :: k in old(data) && k != name ==> data[k] == old(data)[k]
    {
      if RelationIds(env, name) == [] {
        return Pass;
      }
      data := data[name := StoredUnits(data, name)];
      r := AppendRelations(env, Sort(RelationIds(env, name)));
    }

    /** The outer loop of `get_data`: the complete units of each relation id
        of `rids` in turn, appended to the list under `name`. */
    method AppendRelations(env: Env, rids: seq<string>) returns (r: Outcome<Error>)
      requires name in data
      modifies this
      ensures CollectRelations(env, rids, requiredKeys).Success? ==>
        r == Pass && data == old(data)[name := old(data)[name] + CollectRelations(env, rids, requiredKeys).value]
      ensures CollectRelations(env, rids, requiredKeys).Failure? ==>
        r == Fail(NoneHasNoKeys) && data.Keys == old(data).Keys &&
        forall k :: k in old(data) && k != name ==> data[k] == old(data)[k]
    {
      ghost var acc: seq<UnitData> := [];
      var i := 0;
      assert rids[..0] == [] && old(data)[name] + acc == old(data)[name];
      while i < |rids|
        invariant 0 <= i <= |rids|
        invariant CollectRelations(env, rids[..i], requiredKeys) == Success(acc)
        invariant data == old(data)[name := old(data)[name] + acc]
      {
        ghost var found := RelationUnits(env, rids[i], requiredKeys);
        CollectRelationsStep(env, rids, i, requiredKeys, acc);
        var outcome := AppendCompleteUnits(env, rids[i]);
        if outcome.Fail? {
          return outcome;
        }
        assert old(data)[name] + acc + found.value == old(data)[name] + (acc + found.value);
        acc := acc + found.value;
        i := i + 1;
      }
      assert rids[..i] == rids;
      r := Pass;
    }

    /** The inner loop of `get_data`: appends to the list under `name` the
        complete units of relation `rid`, in sorted unit order. */
    method AppendCompleteUnits(env: Env, rid: string) returns (r: Outcome<Error>)
      requires name in data
      modifies this
      ensures RelationUnits(env, rid, requiredKeys).Success? ==>
        r == Pass && data == old(data)[name := old(data)[name] + RelationUnits(env, rid, requiredKeys).value]
      ensures RelationUnits(env, rid, requiredKeys).Failure? ==>
        r == Fail(NoneHasNoKeys) && data.Keys == old(data).Keys &&
        forall k :: k in old(data) && k != name ==> data[k] == old(data)[k]
    {
      var units := Sort(RelatedUnits(env, rid));
      ghost var found: seq<UnitData> := [];
      var j := 0;
      assert units[..0] == [] && old(data)[name] + found == old(data)[name];
      while j < |units|
        invariant 0 <= j <= |units|
        invariant CollectUnits(env, rid, units[..j], requiredKeys) == Success(found)
        invariant data == old(data)[name := old(data)[name] + found]
      {
        assert units[..j + 1][..j] == units[..j];
        if (rid, units[j]) !in env.settings {
          CollectUnitsFailureExtends(env, rid, units, j + 1, requiredKeys);
          return Fail(NoneHasNoKeys);
        }
        var reldata := env.settings[(rid, units[j])];
        if IsReadyUnit(requiredKeys, reldata) {
          assert old(data)[name] + found + [reldata] == old(data)[name] + (found + [reldata]);
          data := data[name := data[name] + [reldata]];
          found := found + [reldata];
        }
        assert CollectUnits(env, rid, units[..j + 1], requiredKeys) == Success(found);
        j := j + 1;
      }
      assert units[..j] == units;
      r := Pass;
    }

    function IsReady(): bool
      reads this
    {
      Ready(data, name)
    }

    /** `__bool__` (and `__nonzero__`): a context is true when it is ready. */
    function Truthy(): bool
      reads this
    {
      IsReady()
    }

    /** The default `provide_data()`: nothing to publish. */
    function ProvideData(): map<string, string>
    {
      map[]
    }
  }

  /** `RelationContext(name, interface, required_keys)` built from an empty
      dict: the constructor runs `get_data`. */
  method NewRelationContext(env: Env, name: string, interface: string, requiredKeys: seq<string>)
    returns (r: Result<RelationContext, Error>)
    ensures FreshContext(env, name, requiredKeys).Failure? <==> r.Failure?
    ensures r.Success? ==>
      fresh(r.value) && r.value.name == name && r.value.requiredKeys == requiredKeys &&
      FreshContext(env, name, requiredKeys) == Success(r.value.data)
  {
    var ctx := new RelationContext(name, interface, requiredKeys, map[]);
    var outcome := ctx.GetData(env);
    if outcome.Fail? {
      return Failure(outcome.error);
    }
    if RelationIds(env, name) != [] {
      var us := Collected(env, name, requiredKeys).value;
      assert StoredUnits(map[], name) + us == us;
    }
    r := Success(ctx);
  }

  /** A unit that `relation-list` reports for one of the relation ids of
      `name` and whose settings hold every required key. */
  ghost predicate CompleteUnitListed(env: Env, name: string, requiredKeys: seq<string>, d: UnitData)
  {
    exists rid, unit :: rid in RelationIds(env, name) && unit in RelatedUnits(env, rid) &&
      (rid, unit) in env.settings && env.settings[(rid, unit)] == d && IsReadyUnit(requiredKeys, d)
  }

  lemma SortMembers(s: seq<string>)
    ensures forall x :: x in Sort(s) <==> x in s
  {
    SortSpec(s);
    assert forall x :: x in Sort(s) <==> x in multiset(Sort(s));
  }

  lemma {:induction false} CollectUnitsMembers(env: Env, rid: string, units: seq<string>, requiredKeys: seq<string>, d: UnitData)
    requires CollectUnits(env, rid, units, requiredKeys).Success?
    ensures d in CollectUnits(env, rid, units, requiredKeys).value <==>
      exists unit :: unit in units && (rid, unit) in env.settings && env.settings[(rid, unit)] == d && IsReadyUnit(requiredKeys, d)
  {
    if units != [] {
      var p := units[..|units| - 1];
      CollectUnitsMembers(env, rid, p, requiredKeys, d);
      assert units == p + [units[|units| - 1]];
    }
  }

  lemma {:induction false} CollectRelationsMembers(env: Env, rids: seq<string>, requiredKeys: seq<string>, d: UnitData)
    requires CollectRelations(env, rids, requiredKeys).Success?
    ensures d in CollectRelations(env, rids, requiredKeys).value <==>
      exists rid, unit :: rid in rids && unit in RelatedUnits(env, rid) &&
        (rid, unit) in env.settings && env.settings[(rid, unit)] == d && IsReadyUnit(requiredKeys, d)
  {
    if rids != [] {
      var p, rid := rids[..|rids| - 1], rids[|rids| - 1];
      assert rids == p + [rid];
      CollectRelationsMembers(env, p, requiredKeys, d);
      var units := Sort(RelatedUnits(env, rid));
      CollectUnitsMembers(env, rid, units, requiredKeys, d);
      SortMembers(RelatedUnits(env, rid));
    }
  }

  /** The collected list holds exactly the complete listed units. */
  lemma CollectedMembers(env: Env, name: string, requiredKeys: seq<string>, d: UnitData)
    requires Collected(env, name, requiredKeys).Success?
    ensures d in Collected(env, name, requiredKeys).value <==> CompleteUnitListed(env, name, requiredKeys, d)
  {
    CollectRelationsMembers(env, Sort(RelationIds(env, name)), requiredKeys, d);
    SortMembers(RelationIds(env, name));
  }

  /** Every collected unit is complete. */
  lemma CollectedAllReady(env: Env, name: string, requiredKeys: seq<string>)
    requires Collected(env, name, requiredKeys).Success?
    ensures forall d :: d in Collected(env, name, requiredKeys).value ==> IsReadyUnit(requiredKeys, d)
  {
    forall d | d in Collected(env, name, requiredKeys).value
      ensures IsReadyUnit(requiredKeys, d)
    {
      CollectedMembers(env, name, requiredKeys, d);
    }
  }

  /** A fresh context is ready exactly when some listed unit is complete. */
  lemma ReadyIffCompleteUnit(env: Env, name: string, requiredKeys: seq<string>)
    requires FreshContext(env, name, requiredKeys).Success?
    ensures Ready(FreshContext(env, name, requiredKeys).value, name) <==>
      exists d :: CompleteUnitListed(env, name, requiredKeys, d)
  {
    if RelationIds(env, name) != [] {
      var us := Collected(env, name, requiredKeys).value;
      if |us| > 0 {
        CollectedMembers(env, name, requiredKeys, us[0]);
      }
      if exists d :: CompleteUnitListed(env, name, requiredKeys, d) {
        var d :| CompleteUnitListed(env, name, requiredKeys, d);
        CollectedMembers(env, name, requiredKeys, d);
      }
    }
  }

  /** A relation that does not exist and one whose units are all incomplete
      look the same: not ready. */
  lemma MissingLikeIncomplete(env: Env, name: string, requiredKeys: seq<string>)
    requires FreshContext(env, name, requiredKeys).Success?
    requires RelationIds(env, name) == [] || forall d :: !CompleteUnitListed(env, name, requiredKeys, d)
    ensures !Ready(FreshContext(env, name, requiredKeys).value, name)
  {
    ReadyIffCompleteUnit(env, name, requiredKeys);
  }

  /** The context `TemplateCallback` renders: `context.update(ctx)` for each
      provider in turn. */
  function MergeAll<K, V>(ctxs: seq<map<K, V>>): map<K, V>
  {
    if ctxs == [] then map[] else MergeAll(ctxs[..|ctxs| - 1]) + ctxs[|ctxs| - 1]
  }

  /** A key of the merged context comes from some provider, and its value
      is that of the last provider holding the key. */
  lemma {:induction false} MergeAllLaterWins<K, V>(ctxs: seq<map<K, V>>, k: K)
    ensures k in MergeAll(ctxs) <==> exists j :: 0 <= j < |ctxs| && k in ctxs[j]
    ensures forall j :: 0 <= j < |ctxs| && k in ctxs[j] && (forall l :: j < l < |ctxs| ==> k !in ctxs[l]) ==>
      k in MergeAll(ctxs) && MergeAll(ctxs)[k] == ctxs[j][k]
  {
    if ctxs != [] {
      var p := ctxs[..|ctxs| - 1];
      MergeAllLaterWins(p, k);
      forall j | 0 <= j < |p| ensures p[j] == ctxs[j] { }
    }
  }

  /** `TemplateCallback.__call__`: the context it builds before rendering. */
  method TemplateContext<K, V>(ctxs: seq<map<K, V>>) returns (context: map<K, V>)
    ensures context == MergeAll(ctxs)
  {
    context := map[];
    var i := 0;
    while i < |ctxs|
      invariant 0 <= i <= |ctxs|
      invariant context == MergeAll(ctxs[..i])
    {
      assert ctxs[..i + 1][..i] == ctxs[..i];
      context := context + ctxs[i];
      i := i + 1;
    }
    assert ctxs[..i] == ctxs;
  }
}
