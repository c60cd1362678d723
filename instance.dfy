/**
 * An instance of the fair course-allocation problem: agents, items, the
 * agents' capacities, priorities and entitlements, the items' capacities and
 * each agent's value for each item, each given as any container the helpers
 * accept. Construction resolves which argument supplies the agents and the
 * items and fills in default capacities; the instance then answers an agent's
 * value for a bundle and the largest value the agent can reach within its
 * capacity.
 */
module CourseInstance {
  import opened InstanceContainers
  import opened TopValues

  datatype Instance = Instance(
    agents: seq<Key>,
    items: seq<Key>,
    agentCapacity: Mapping,
    agentPriority: Mapping,
    agentEntitlement: Mapping,
    itemCapacity: Mapping,
    agentItemValue: Option<Mapping>)

  /** Python's truth value of a key collection: present and non-empty. */
  predicate Truthy(keys: Option<seq<Key>>) {
    keys.Some? && |keys.value| > 0
  }

  /** Python's `a or b` on key collections. */
  function OrKeys(a: Option<seq<Key>>, b: Option<seq<Key>>): Option<seq<Key>> {
    if Truthy(a) then a else b
  }

  /** Python's `k0 or k1 or ... or kn`. */
  function OrAll(opts: seq<Option<seq<Key>>>): Option<seq<Key>>
    requires |opts| > 0
  {
    if |opts| == 1 then opts[0] else OrKeys(opts[0], OrAll(opts[1..]))
  }

  /** The chain of `or`s picks the first truthy collection, or the last one when none is. */
  lemma {:induction false} OrAllPicksFirstTruthy(opts: seq<Option<seq<Key>>>)
    requires |opts| > 0
    ensures exists i :: 0 <= i < |opts| && OrAll(opts) == opts[i] && (Truthy(opts[i]) || i == |opts| - 1)
                        && forall j :: 0 <= j < i ==> !Truthy(opts[j])
  {
    if |opts| > 1 && !Truthy(opts[0]) {
      OrAllPicksFirstTruthy(opts[1..]);
      var i :| 0 <= i < |opts| - 1 && OrAll(opts[1..]) == opts[1..][i] && (Truthy(opts[1..][i]) || i == |opts| - 2)
                && forall j :: 0 <= j < i ==> !Truthy(opts[1..][j]);
      assert OrAll(opts) == opts[i + 1];
      assert forall j :: 0 <= j < i + 1 ==> !Truthy(opts[j]) by {
        forall j | 0 < j < i + 1 ensures !Truthy(opts[j]) {
          assert opts[j] == opts[1..][j - 1];
        }
      }
    } else {
      assert OrAll(opts) == opts[0];
    }
  }

  /** `func or default`: an absent lookup function is replaced by the default. */
  function OrDefault(func: Option<Mapping>, default: Mapping): Mapping {
    if func.Some? then func.value else default
  }

  predicate IsNone(arg: Argument) {
    arg.Value? && arg.data == NoneData
  }

  /** The collections the agents are taken from, in order of precedence. */
  function AgentCandidates(valuations: Argument, agentCapacities: Argument, agentPriorities: Argument, agents: Option<seq<Key>>): seq<Option<seq<Key>>>
    requires KeysAndMapping2(valuations).Ok? && KeysAndMapping(agentCapacities).Ok? && KeysAndMapping(agentPriorities).Ok?
  {
    [agents, KeysAndMapping(agentCapacities).value.keys, KeysAndMapping(agentPriorities).value.keys, KeysAndMapping2(valuations).value.keys1]
  }

  /** The collections the items are taken from, in order of precedence. */
  function ItemCandidates(valuations: Argument, itemCapacities: Argument, items: Option<seq<Key>>): seq<Option<seq<Key>>>
    requires KeysAndMapping2(valuations).Ok? && KeysAndMapping(itemCapacities).Ok?
  {
    [items, KeysAndMapping(itemCapacities).value.keys, KeysAndMapping2(valuations).value.keys2]
  }

  /**
   * Instance(valuations, agent_capacities, agent_priorities,
   * agent_entitlements, item_capacities, agents, items). The containers are
   * read in that order and the first one the helpers refuse raises; the agents
   * are the first non-empty of the explicit list, the capacity keys, the
   * priority keys and the valuation's first-level keys, the items the first
   * non-empty of the explicit list, the item-capacity keys and the valuation's
   * second-level keys (AssertionError when the chosen one is None); missing
   * capacities, priorities and entitlements default to constants.
   */
  function NewInstance(valuations: Argument, agentCapacities: Argument, agentPriorities: Argument, agentEntitlements: Argument,
                       itemCapacities: Argument, agents: Option<seq<Key>>, items: Option<seq<Key>>): (r: Result<Instance>)
    ensures KeysAndMapping2(valuations).Raise? ==> r.Raise? && r.error == KeysAndMapping2(valuations).error
    ensures KeysAndMapping2(valuations).Ok? ==>
              (KeysAndMapping(agentCapacities).Raise? || KeysAndMapping(agentPriorities).Raise?
               || KeysAndMapping(agentEntitlements).Raise? || KeysAndMapping(itemCapacities).Raise?) ==>
              r.Raise? && r.error == TypeError
    ensures KeysAndMapping2(valuations).Ok? && KeysAndMapping(agentCapacities).Ok? && KeysAndMapping(agentPriorities).Ok? ==>
              KeysAndMapping(agentEntitlements).Ok? && KeysAndMapping(itemCapacities).Ok? ==>
              r.Raise? ==> r.error == AssertionError
    ensures r.Ok? ==> KeysAndMapping2(valuations).Ok? && KeysAndMapping(agentCapacities).Ok? && KeysAndMapping(agentPriorities).Ok?
                      && KeysAndMapping(agentEntitlements).Ok? && KeysAndMapping(itemCapacities).Ok?
    ensures r.Ok? && Truthy(agents) ==> r.value.agents == agents.value
    ensures r.Ok? && Truthy(items) ==> r.value.items == items.value
    ensures r.Ok? && IsNone(agentCapacities) ==> forall a :: Apply(r.value.agentCapacity, a) == Ok(Number(|r.value.items|))
    ensures r.Ok? && !IsNone(agentCapacities) ==> forall a :: Apply(r.value.agentCapacity, a) == Apply(KeysAndMapping(agentCapacities).value.func.value, a)
    ensures r.Ok? && IsNone(agentPriorities) ==> forall a :: Apply(r.value.agentPriority, a) == Ok(Number(1))
    ensures r.Ok? && IsNone(agentEntitlements) ==> forall a :: Apply(r.value.agentEntitlement, a) == Ok(Number(1))
    ensures r.Ok? && IsNone(itemCapacities) ==> forall i :: Apply(r.value.itemCapacity, i) == Ok(Number(1))
    ensures r.Ok? && !IsNone(itemCapacities) ==> forall i :: Apply(r.value.itemCapacity, i) == Apply(KeysAndMapping(itemCapacities).value.func.value, i)
    ensures r.Ok? ==> (r.value.agentItemValue.None? <==> IsNone(valuations))
    ensures r.Ok? && !IsNone(agentCapacities) ==> r.value.agentCapacity == KeysAndMapping(agentCapacities).value.func.value
    ensures r.Ok? && !IsNone(agentPriorities) ==> r.value.agentPriority == KeysAndMapping(agentPriorities).value.func.value
    ensures r.Ok? && !IsNone(agentEntitlements) ==> r.value.agentEntitlement == KeysAndMapping(agentEntitlements).value.func.value
    ensures r.Ok? && !IsNone(itemCapacities) ==> r.value.itemCapacity == KeysAndMapping(itemCapacities).value.func.value
    ensures r.Ok? ==> r.value.agentItemValue == KeysAndMapping2(valuations).value.func
  {
    var values := KeysAndMapping2(valuations);
    if values.Raise? then Raise(values.error)
    else
      var capacity := KeysAndMapping(agentCapacities);
      if capacity.Raise? then Raise(capacity.error)
      else
        var priority := KeysAndMapping(agentPriorities);
        if priority.Raise? then Raise(priority.error)
        else
          var entitlement := KeysAndMapping(agentEntitlements);
          if entitlement.Raise? then Raise(entitlement.error)
          else
            var itemCapacity := KeysAndMapping(itemCapacities);
            if itemCapacity.Raise? then Raise(itemCapacity.error)
            else
              var agentKeys := OrAll(AgentCandidates(valuations, agentCapacities, agentPriorities, agents));
              if agentKeys.None? then Raise(AssertionError)
              else
                var itemKeys := OrAll(ItemCandidates(valuations, itemCapacities, items));
                if itemKeys.None? then Raise(AssertionError)
                else
                  Ok(Instance(
                    agentKeys.value,
                    itemKeys.value,
                    OrDefault(capacity.value.func, ConstantFunction(Number(|itemKeys.value|))),
                    OrDefault(priority.value.func, ConstantFunction(Number(1))),
                    OrDefault(entitlement.value.func, ConstantFunction(Number(1))),
                    OrDefault(itemCapacity.value.func, ConstantFunction(Number(1))),
                    values.value.func))
  }

  /**
   * Once the containers are accepted, the instance's agents are the first
   * truthy candidate (or the last candidate when none is), and construction
   * fails with AssertionError exactly when that is None; likewise the items.
   */
  lemma InstanceKeys(valuations: Argument, agentCapacities: Argument, agentPriorities: Argument, agentEntitlements: Argument,
                     itemCapacities: Argument, agents: Option<seq<Key>>, items: Option<seq<Key>>)
    requires KeysAndMapping2(valuations).Ok? && KeysAndMapping(agentCapacities).Ok? && KeysAndMapping(agentPriorities).Ok?
    requires KeysAndMapping(agentEntitlements).Ok? && KeysAndMapping(itemCapacities).Ok?
    ensures var r := NewInstance(valuations, agentCapacities, agentPriorities, agentEntitlements, itemCapacities, agents, items);
            var ac := AgentCandidates(valuations, agentCapacities, agentPriorities, agents);
            var ic := ItemCandidates(valuations, itemCapacities, items);
            && (r.Ok? ==> (exists i :: 0 <= i < |ac| && ac[i] == Some(r.value.agents) && (Truthy(ac[i]) || i == |ac| - 1)
                                       && forall j :: 0 <= j < i ==> !Truthy(ac[j])))
            && (r.Ok? ==> (exists i :: 0 <= i < |ic| && ic[i] == Some(r.value.items) && (Truthy(ic[i]) || i == |ic| - 1)
                                       && forall j :: 0 <= j < i ==> !Truthy(ic[j])))
            && (r.Raise? <==> OrAll(ac).None? || OrAll(ic).None?)
            && (r.Raise? ==> r.error == AssertionError)
  {
    OrAllPicksFirstTruthy(AgentCandidates(valuations, agentCapacities, agentPriorities, agents));
    OrAllPicksFirstTruthy(ItemCandidates(valuations, itemCapacities, items));
  }

  // ---------------------------------------------------------------------------
  // Values

  /** agent_item_value(agent, item); with no valuation the value function is None and calling it raises TypeError. */
  function ValueLookup(inst: Instance, agent: Key, item: Key): Result<Data> {
    if inst.agentItemValue.None? then Raise(TypeError) else Apply2(inst.agentItemValue.value, agent, item)
  }

  /** [agent_item_value(agent, item) for item in bundle]: the values in bundle order, or the first failing lookup's error. */
  function ItemValues(inst: Instance, agent: Key, bundle: seq<Key>): (r: Result<seq<Data>>)
    ensures r.Ok? <==> forall i :: 0 <= i < |bundle| ==> ValueLookup(inst, agent, bundle[i]).Ok?
    ensures r.Ok? ==> |r.value| == |bundle| && forall i :: 0 <= i < |bundle| ==> ValueLookup(inst, agent, bundle[i]) == Ok(r.value[i])
    ensures r.Raise? ==> exists i :: 0 <= i < |bundle| && ValueLookup(inst, agent, bundle[i]) == Raise(r.error)
                                     && forall j :: 0 <= j < i ==> ValueLookup(inst, agent, bundle[j]).Ok?
  {
    if |bundle| == 0 then Ok([])
    else
      var first := ValueLookup(inst, agent, bundle[0]);
      if first.Raise? then Raise(first.error)
      else
        var rest := ItemValues(inst, agent, bundle[1..]);
        assert forall i :: 0 < i < |bundle| ==> bundle[i] == bundle[1..][i - 1];
        if rest.Raise? then Raise(rest.error) else Ok([first.value] + rest.value)
  }

  /** The values as integers, for sum and sorting; a value that is not a number raises TypeError. */
  function Numbers(ds: seq<Data>): (r: Result<seq<int>>)
    ensures r.Ok? <==> forall i :: 0 <= i < |ds| ==> ds[i].Number?
    ensures r.Raise? ==> r.error == TypeError
    ensures r.Ok? ==> |r.value| == |ds| && forall i :: 0 <= i < |ds| ==> r.value[i] == ds[i].n
  {
    if forall i :: 0 <= i < |ds| ==> ds[i].Number? then Ok(seq(|ds|, i requires 0 <= i < |ds| => ds[i].n))
    else Raise(TypeError)
  }

  /** The agent's values for the items of a bundle, as integers. */
  function ValueNumbers(inst: Instance, agent: Key, bundle: seq<Key>): Result<seq<int>> {
    var vs := ItemValues(inst, agent, bundle);
    if vs.Raise? then Raise(vs.error) else Numbers(vs.value)
  }

  /** agent_bundle_value: the sum of the agent's values for the items of the bundle. */
  function BundleValue(inst: Instance, agent: Key, bundle: seq<Key>): Result<int> {
    var ns := ValueNumbers(inst, agent, bundle);
    if ns.Raise? then Raise(ns.error) else Ok(Sum(ns.value))
  }

  /**
   * agent_maximum_value: the agent's values for all items, sorted from the
   * largest, cut to the first agent_capacity(agent) (Python's slice [0:k]; a
   * capacity of None keeps them all, any other non-number raises TypeError),
   * and summed.
   */
  function MaximumValue(inst: Instance, agent: Key): Result<int> {
    var ns := ValueNumbers(inst, agent, inst.items);
    if ns.Raise? then Raise(ns.error)
    else
      var capacity := Apply(inst.agentCapacity, agent);
      if capacity.Raise? then Raise(capacity.error)
      else if capacity.value.Number? then Ok(TopSum(ns.value, capacity.value.n))
      else if capacity.value.NoneData? then Ok(Sum(SortDesc(ns.value)))
      else Raise(TypeError)
  }

  // ---------------------------------------------------------------------------
  // Properties of the values

  /** The agent's value for an item, as an integer (0 where the lookup fails or is not a number). */
  function ItemNumber(inst: Instance, agent: Key): Key -> int {
    item => var v := ValueLookup(inst, agent, item); if v.Ok? && v.value.Number? then v.value.n else 0
  }

  predicate Numeric(inst: Instance, agent: Key, item: Key) {
    ValueLookup(inst, agent, item).Ok? && ValueLookup(inst, agent, item).value.Number?
  }

  /** When every item of the bundle has a numeric value, the bundle's values are those numbers in bundle order. */
  lemma ValuesAsMap(inst: Instance, agent: Key, bundle: seq<Key>)
    requires forall i :: 0 <= i < |bundle| ==> Numeric(inst, agent, bundle[i])
    ensures ValueNumbers(inst, agent, bundle) == Ok(Map(ItemNumber(inst, agent), bundle))
  {
    var iv := ItemValues(inst, agent, bundle);
    assert iv.Ok?;
    var vs := iv.value;
    var f := ItemNumber(inst, agent);
    forall i | 0 <= i < |vs| ensures vs[i].Number? && vs[i].n == f(bundle[i]) {
      assert ValueLookup(inst, agent, bundle[i]) == Ok(vs[i]);
    }
    var ns := Numbers(vs);
    assert ns.Ok?;
    assert ns.value == Map(f, bundle);
  }

  /** The numbers of a bundle succeed exactly when every item's value is a number. */
  lemma ValueNumbersOk(inst: Instance, agent: Key, bundle: seq<Key>)
    ensures ValueNumbers(inst, agent, bundle).Ok? <==> forall i :: 0 <= i < |bundle| ==> Numeric(inst, agent, bundle[i])
  {
    var vs := ItemValues(inst, agent, bundle);
    if vs.Ok? {
      forall i | 0 <= i < |bundle| ensures ValueLookup(inst, agent, bundle[i]) == Ok(vs.value[i]) {
      }
    }
  }

  /** Every item of a concatenation has a numeric value when every item of both parts has. */
  lemma NumericAppend(inst: Instance, agent: Key, b1: seq<Key>, b2: seq<Key>)
    requires forall i :: 0 <= i < |b1| ==> Numeric(inst, agent, b1[i])
    requires forall i :: 0 <= i < |b2| ==> Numeric(inst, agent, b2[i])
    ensures forall i :: 0 <= i < |b1 + b2| ==> Numeric(inst, agent, (b1 + b2)[i])
  {
    forall i | 0 <= i < |b1 + b2| ensures Numeric(inst, agent, (b1 + b2)[i]) {
      if i >= |b1| {
        assert (b1 + b2)[i] == b2[i - |b1|];
      }
    }
  }

  /** When every item of the bundle has a numeric value, the bundle's value is the sum of those numbers. */
  lemma BundleValueAsSum(inst: Instance, agent: Key, bundle: seq<Key>)
    requires forall i :: 0 <= i < |bundle| ==> Numeric(inst, agent, bundle[i])
    ensures BundleValue(inst, agent, bundle) == Ok(Sum(Map(ItemNumber(inst, agent), bundle)))
  {
    ValuesAsMap(inst, agent, bundle);
  }

  /** The value of a concatenation of bundles is the sum of their values. */
  lemma BundleValueAppend(inst: Instance, agent: Key, b1: seq<Key>, b2: seq<Key>)
    requires BundleValue(inst, agent, b1).Ok? && BundleValue(inst, agent, b2).Ok?
    ensures BundleValue(inst, agent, b1 + b2) == Ok(BundleValue(inst, agent, b1).value + BundleValue(inst, agent, b2).value)
  {
    ValueNumbersOk(inst, agent, b1);
    ValueNumbersOk(inst, agent, b2);
    NumericAppend(inst, agent, b1, b2);
    BundleValueAsSum(inst, agent, b1);
    BundleValueAsSum(inst, agent, b2);
    BundleValueAsSum(inst, agent, b1 + b2);
    var f := ItemNumber(inst, agent);
    MapAppend(f, b1, b2);
    SumAppend(Map(f, b1), Map(f, b2));
  }

  /** Reordering a bundle does not change its value. */
  lemma BundleValueReorder(inst: Instance, agent: Key, b1: seq<Key>, b2: seq<Key>)
    requires multiset(b1) == multiset(b2) && BundleValue(inst, agent, b1).Ok?
    ensures BundleValue(inst, agent, b2) == BundleValue(inst, agent, b1)
  {
    ValueNumbersOk(inst, agent, b1);
    forall i | 0 <= i < |b2| ensures Numeric(inst, agent, b2[i]) {
      assert b2[i] in multiset(b1);
    }
    ValuesAsMap(inst, agent, b1);
    ValuesAsMap(inst, agent, b2);
    var f := ItemNumber(inst, agent);
    MapSubMultiset(f, b1, b2);
    MapSubMultiset(f, b2, b1);
    SumPermutation(Map(f, b1), Map(f, b2));
  }

  /**
   * agent_maximum_value bounds every bundle the agent can take: any k of the
   * instance's items (k the agent's capacity) are worth at most the maximum
   * value.
   */
  lemma MaximumValueIsMaximum(inst: Instance, agent: Key, bundle: seq<Key>)
    requires MaximumValue(inst, agent).Ok?
    requires Apply(inst.agentCapacity, agent).Ok? && Apply(inst.agentCapacity, agent).value.Number?
    requires multiset(bundle) <= multiset(inst.items) && |bundle| == Apply(inst.agentCapacity, agent).value.n
    ensures BundleValue(inst, agent, bundle).Ok?
    ensures BundleValue(inst, agent, bundle).value <= MaximumValue(inst, agent).value
  {
    ValueNumbersOk(inst, agent, inst.items);
    forall i | 0 <= i < |bundle| ensures Numeric(inst, agent, bundle[i]) {
      assert bundle[i] in multiset(inst.items);
    }
    ValuesAsMap(inst, agent, bundle);
    ValuesAsMap(inst, agent, inst.items);
    var f := ItemNumber(inst, agent);
    MapSubMultiset(f, bundle, inst.items);
    TopSumIsMaximum(Map(f, inst.items), Map(f, bundle), |bundle|);
  }

  /** With a capacity of at least the number of items (or None), the maximum value is the value of all items. */
  lemma MaximumValueOfAllItems(inst: Instance, agent: Key)
    requires MaximumValue(inst, agent).Ok?
    requires Apply(inst.agentCapacity, agent).Ok?
    requires var c := Apply(inst.agentCapacity, agent).value; c.NoneData? || (c.Number? && c.n >= |inst.items|)
    ensures MaximumValue(inst, agent) == BundleValue(inst, agent, inst.items)
  {
    var ns := ValueNumbers(inst, agent, inst.items).value;
    TopSumOfAll(ns, |ns|);
    if Apply(inst.agentCapacity, agent).value.Number? {
      TopSumOfAll(ns, Apply(inst.agentCapacity, agent).value.n);
    }
  }

  /**
   * Without agent capacities every agent's capacity is the number of items, so
   * each agent's maximum value is its value for all items.
   */
  lemma DefaultCapacityTakesAllItems(valuations: Argument, agentPriorities: Argument, agentEntitlements: Argument,
                                     itemCapacities: Argument, agents: Option<seq<Key>>, items: Option<seq<Key>>, agent: Key)
    requires NewInstance(valuations, Value(NoneData), agentPriorities, agentEntitlements, itemCapacities, agents, items).Ok?
    requires MaximumValue(NewInstance(valuations, Value(NoneData), agentPriorities, agentEntitlements, itemCapacities, agents, items).value, agent).Ok?
    ensures var inst := NewInstance(valuations, Value(NoneData), agentPriorities, agentEntitlements, itemCapacities, agents, items).value;
            MaximumValue(inst, agent) == BundleValue(inst, agent, inst.items)
  {
    var inst := NewInstance(valuations, Value(NoneData), agentPriorities, agentEntitlements, itemCapacities, agents, items).value;
    assert Apply(inst.agentCapacity, agent) == Ok(Number(|inst.items|));
    MaximumValueOfAllItems(inst, agent);
  }
}
