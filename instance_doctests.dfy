/**
 * The documented examples of the container helpers and of the instance,
 * stated as lemmas about the model.
 */
module InstanceDoctests {
  import opened InstanceContainers
  import opened CourseInstance
  import opened TopValues

  // ---------------------------------------------------------------------------
  // get_keys_and_mapping and get_keys_and_mapping_2d

  /** A dict's keys in order, and its lookup. */
  lemma KeysOfDict()
    ensures var r := KeysAndMapping(Value(Dict([(Str("a"), Number(1)), (Str("b"), Number(2))])));
            r.Ok? && r.value.keys == Some([Str("a"), Str("b")]) && Apply(r.value.func.value, Str("a")) == Ok(Number(1))
  {
    assert DictKeys([(Str("a"), Number(1)), (Str("b"), Number(2))]) == [Str("a"), Str("b")];
  }

  /** A list's keys are its indices, and its lookup is indexing. */
  lemma KeysOfList()
    ensures var r := KeysAndMapping(Value(List([Number(11), Number(12)])));
            r.Ok? && r.value.keys == Some([Int(0), Int(1)]) && Apply(r.value.func.value, Int(1)) == Ok(Number(12))
  {
    assert IndexKeys(2) == [Int(0), Int(1)];
  }

  function PlusFive(k: Key): Data {
    if k.Int? then Number(k.i + 5) else Unsupported
  }

  /** A callable has no keys and is its own lookup. */
  lemma KeysOfCallable()
    ensures var r := KeysAndMapping(Callable1(PlusFive));
            r.Ok? && r.value.keys.None? && Apply(r.value.func.value, Int(2)) == Ok(Number(7))
  {
  }

  /** A number has no keys and looks up as itself everywhere. */
  lemma KeysOfNumber()
    ensures var r := KeysAndMapping(Value(Number(1)));
            r.Ok? && r.value.keys.None? && Apply(r.value.func.value, Int(2)) == Ok(Number(1))
  {
  }

  const TwoRows := Dict([(Str("a"), Dict([(Str("x"), Number(11)), (Str("y"), Number(22)), (Str("z"), Number(33))])),
                         (Str("b"), Dict([(Str("x"), Number(55)), (Str("y"), Number(33)), (Str("z"), Number(44))]))])

  /** A dict of dicts: the agents, the items of the first row, and two-level lookup. */
  lemma KeysOfDictOfDicts()
    ensures var r := KeysAndMapping2(Value(TwoRows));
            && r.Ok?
            && r.value.keys1 == Some([Str("a"), Str("b")])
            && r.value.keys2 == Some([Str("x"), Str("y"), Str("z")])
            && Apply2(r.value.func.value, Str("a"), Str("x")) == Ok(Number(11))
            && Apply2(r.value.func.value, Str("b"), Str("z")) == Ok(Number(44))
  {
    assert DictKeys(TwoRows.entries) == [Str("a"), Str("b")];
    assert DictKeys(TwoRows.entries[0].1.entries) == [Str("x"), Str("y"), Str("z")];
  }

  /** A list of lists: indices at both levels, and two-level indexing. */
  lemma KeysOfListOfLists()
    ensures var r := KeysAndMapping2(Value(List([List([Number(11), Number(22)]), List([Number(33), Number(44)])])));
            && r.Ok?
            && r.value.keys1 == Some([Int(0), Int(1)])
            && r.value.keys2 == Some([Int(0), Int(1)])
            && Apply2(r.value.func.value, Int(0), Int(1)) == Ok(Number(22))
            && Apply2(r.value.func.value, Int(1), Int(0)) == Ok(Number(33))
  {
    assert IndexKeys(2) == [Int(0), Int(1)];
  }

  function AddKeys(a: Key, i: Key): Data {
    if a.Int? && i.Int? then Number(a.i + i.i) else Unsupported
  }

  /** A two-argument callable has no keys and is its own lookup. */
  lemma KeysOfCallable2()
    ensures var r := KeysAndMapping2(Callable2(AddKeys));
            r.Ok? && r.value.keys1.None? && r.value.keys2.None? && Apply2(r.value.func.value, Int(1), Int(2)) == Ok(Number(3))
  {
  }

  // ---------------------------------------------------------------------------
  // Instance

  /** A lookup function that is a container's subscription. */
  predicate IsLookupIn(m: Mapping, d: Data) {
    m.GetItem? && m.container == d
  }

  predicate LooksUpIn(m: Option<Mapping>, d: Data) {
    m.Some? && IsLookupIn(m.value, d)
  }

  const AliceBobValues := Dict([(Str("Alice"), Dict([(Str("c1"), Number(11)), (Str("c2"), Number(22))])),
                                (Str("Bob"), Dict([(Str("c1"), Number(33)), (Str("c2"), Number(44))]))])
  const AliceBobCapacities := Dict([(Str("Alice"), Number(2)), (Str("Bob"), Number(3))])
  const CourseCapacities := Dict([(Str("c1"), Number(4)), (Str("c2"), Number(5))])

  function DictOfDicts(): Result<Instance> {
    NewInstance(Value(AliceBobValues), Value(AliceBobCapacities), Value(NoneData), Value(NoneData), Value(CourseCapacities), None, None)
  }

  /** The dict-of-dicts instance takes its agents from the capacities and its items from the item capacities. */
  lemma DictOfDictsBuilt()
    ensures var r := DictOfDicts();
            && r.Ok?
            && r.value.agents == [Str("Alice"), Str("Bob")]
            && r.value.items == [Str("c1"), Str("c2")]
            && IsLookupIn(r.value.agentCapacity, AliceBobCapacities)
            && IsLookupIn(r.value.itemCapacity, CourseCapacities)
            && LooksUpIn(r.value.agentItemValue, AliceBobValues)
  {
    assert DictKeys(AliceBobCapacities.entries) == [Str("Alice"), Str("Bob")];
    assert DictKeys(CourseCapacities.entries) == [Str("c1"), Str("c2")];
  }

  /** Capacities and a value of the dict-of-dicts instance. */
  lemma DictOfDictsLookups()
    ensures var r := DictOfDicts();
            && r.Ok?
            && Apply(r.value.agentCapacity, Str("Alice")) == Ok(Number(2))
            && Apply(r.value.itemCapacity, Str("c2")) == Ok(Number(5))
            && ValueLookup(r.value, Str("Bob"), Str("c1")) == Ok(Number(33))
  {
    DictOfDictsBuilt();
  }

  /** The values of a two-item bundle, from the values of its items. */
  lemma TwoValues(inst: Instance, agent: Key, i0: Key, i1: Key, v0: int, v1: int)
    requires ValueLookup(inst, agent, i0) == Ok(Number(v0)) && ValueLookup(inst, agent, i1) == Ok(Number(v1))
    ensures ValueNumbers(inst, agent, [i0, i1]) == Ok([v0, v1])
  {
    var b := [i0, i1];
    assert b[0] == i0 && b[1] == i1;
    var r := ItemValues(inst, agent, b);
    assert r.Ok?;
    var vs := r.value;
    assert vs == [Number(v0), Number(v1)];
    var ns := Numbers(vs);
    assert ns.Ok? && ns.value == [v0, v1];
  }

  /** The values of a four-item bundle, from the values of its items. */
  lemma FourValues(inst: Instance, agent: Key, i0: Key, i1: Key, i2: Key, i3: Key, v0: int, v1: int, v2: int, v3: int)
    requires ValueLookup(inst, agent, i0) == Ok(Number(v0)) && ValueLookup(inst, agent, i1) == Ok(Number(v1))
    requires ValueLookup(inst, agent, i2) == Ok(Number(v2)) && ValueLookup(inst, agent, i3) == Ok(Number(v3))
    ensures ValueNumbers(inst, agent, [i0, i1, i2, i3]) == Ok([v0, v1, v2, v3])
  {
    var b := [i0, i1, i2, i3];
    assert b[0] == i0 && b[1] == i1 && b[2] == i2 && b[3] == i3;
    var r := ItemValues(inst, agent, b);
    assert r.Ok?;
    var vs := r.value;
    assert vs == [Number(v0), Number(v1), Number(v2), Number(v3)];
    var ns := Numbers(vs);
    assert ns.Ok? && ns.value == [v0, v1, v2, v3];
  }

  /** The maximum value from the item values and a numeric capacity. */
  lemma MaximumFromValues(inst: Instance, agent: Key, ns: seq<int>, k: int)
    requires ValueNumbers(inst, agent, inst.items) == Ok(ns) && Apply(inst.agentCapacity, agent) == Ok(Number(k))
    ensures MaximumValue(inst, agent) == Ok(TopSum(ns, k))
  {
  }

  /** Bob's value for both courses. */
  lemma DictOfDictsBundle()
    ensures var r := DictOfDicts();
            r.Ok? && BundleValue(r.value, Str("Bob"), [Str("c1"), Str("c2")]) == Ok(77)
  {
    DictOfDictsBuilt();
    var inst := DictOfDicts().value;
    TwoValues(inst, Str("Bob"), Str("c1"), Str("c2"), 33, 44);
  }

  /** Two increasing values sorted from the largest. */
  lemma SortPair(x: int, y: int)
    requires x < y
    ensures SortDesc([x, y]) == [y, x]
  {
    assert SortedDesc([y, x]);
    assert multiset([x, y]) == multiset([y, x]);
    SortedUnique(SortDesc([x, y]), [y, x]);
  }

  /** Four increasing values sorted from the largest. */
  lemma SortFour(a: int, b: int, c: int, d: int)
    requires a < b < c < d
    ensures SortDesc([a, b, c, d]) == [d, c, b, a]
  {
    var r := [d, c, b, a];
    assert SortedDesc(r) by {
      forall i, j | 0 <= i < j < 4 ensures r[i] >= r[j] {
      }
    }
    assert multiset([a, b, c, d]) == multiset(r);
    SortedUnique(SortDesc([a, b, c, d]), r);
  }

  /** Taking two or more of two values takes both. */
  lemma TopOfPair(x: int, y: int, k: int)
    requires x < y && k >= 2
    ensures TopSum([x, y], k) == x + y
  {
    SortPair(x, y);
    assert SliceTo([y, x], k) == [y, x];
    SmallSums(y, x, 0);
  }

  /** Alice's maximum value: her capacity is 2, so both courses. */
  lemma DictOfDictsAliceMaximum()
    ensures var r := DictOfDicts();
            r.Ok? && MaximumValue(r.value, Str("Alice")) == Ok(33)
  {
    DictOfDictsBuilt();
    var inst := DictOfDicts().value;
    TwoValues(inst, Str("Alice"), Str("c1"), Str("c2"), 11, 22);
    assert Apply(inst.agentCapacity, Str("Alice")) == Ok(Number(2));
    MaximumFromValues(inst, Str("Alice"), [11, 22], 2);
    TopOfPair(11, 22, 2);
  }

  /** Bob's maximum value: his capacity 3 exceeds the two courses, so both count. */
  lemma DictOfDictsBobMaximum()
    ensures var r := DictOfDicts();
            r.Ok? && MaximumValue(r.value, Str("Bob")) == Ok(77)
  {
    DictOfDictsBuilt();
    var inst := DictOfDicts().value;
    TwoValues(inst, Str("Bob"), Str("c1"), Str("c2"), 33, 44);
    assert Apply(inst.agentCapacity, Str("Bob")) == Ok(Number(3));
    MaximumFromValues(inst, Str("Bob"), [33, 44], 3);
    TopOfPair(33, 44, 3);
  }

  const ListValues := Dict([(Str("Alice"), List([Number(22), Number(33), Number(44), Number(55)])),
                            (Str("Bob"), List([Number(66), Number(77), Number(88), Number(99)]))])
  const IndexedCapacities := List([Number(1), Number(2), Number(3), Number(4)])

  function DictOfLists(): Result<Instance> {
    NewInstance(Value(ListValues), Value(AliceBobCapacities), Value(NoneData), Value(NoneData), Value(IndexedCapacities), None, None)
  }

  /** The dict-of-lists instance: its agents are the capacity keys and its items the indices of the item capacities. */
  lemma DictOfListsBuilt()
    ensures var r := DictOfLists();
            && r.Ok?
            && r.value.agents == [Str("Alice"), Str("Bob")]
            && r.value.items == [Int(0), Int(1), Int(2), Int(3)]
            && IsLookupIn(r.value.agentCapacity, AliceBobCapacities)
            && IsLookupIn(r.value.itemCapacity, IndexedCapacities)
            && LooksUpIn(r.value.agentItemValue, ListValues)
  {
    assert DictKeys(AliceBobCapacities.entries) == [Str("Alice"), Str("Bob")];
    assert IndexKeys(4) == [Int(0), Int(1), Int(2), Int(3)];
  }

  /** Capacities and a value of the dict-of-lists instance. */
  lemma DictOfListsLookups()
    ensures var r := DictOfLists();
            && r.Ok?
            && Apply(r.value.agentCapacity, Str("Alice")) == Ok(Number(2))
            && Apply(r.value.itemCapacity, Int(2)) == Ok(Number(3))
            && ValueLookup(r.value, Str("Alice"), Int(3)) == Ok(Number(55))
  {
    DictOfListsBuilt();
  }

  /** The sums of one, two and three values. */
  lemma SmallSums(x: int, y: int, z: int)
    ensures Sum([x]) == x
    ensures Sum([x, y]) == x + y
    ensures Sum([x, y, z]) == x + y + z
  {
    assert [x][1..] == [];
    assert [x, y][1..] == [y];
    assert [x, y, z][1..] == [y, z];
    assert [y, z][1..] == [z];
    assert Sum([z]) == z;
  }

  /** The first two and the first three of four values, summed. */
  lemma PrefixSums(d: int, c: int, b: int, a: int)
    ensures Sum(SliceTo([d, c, b, a], 2)) == d + c
    ensures Sum(SliceTo([d, c, b, a], 3)) == d + c + b
  {
    var r := [d, c, b, a];
    assert r[..2] == [d, c];
    assert r[..3] == [d, c, b];
    SmallSums(d, c, b);
  }

  /** The top two of four increasing values. */
  lemma TopTwoOfFour(a: int, b: int, c: int, d: int)
    requires a < b < c < d
    ensures TopSum([a, b, c, d], 2) == d + c
  {
    SortFour(a, b, c, d);
    PrefixSums(d, c, b, a);
  }

  /** The top three of four increasing values. */
  lemma TopThreeOfFour(a: int, b: int, c: int, d: int)
    requires a < b < c < d
    ensures TopSum([a, b, c, d], 3) == d + c + b
  {
    SortFour(a, b, c, d);
    PrefixSums(d, c, b, a);
  }

  /** Alice's maximum value: the top 2 of her values, 55 + 44. */
  lemma DictOfListsAliceMaximum()
    ensures var r := DictOfLists();
            r.Ok? && MaximumValue(r.value, Str("Alice")) == Ok(99)
  {
    DictOfListsBuilt();
    var inst := DictOfLists().value;
    FourValues(inst, Str("Alice"), Int(0), Int(1), Int(2), Int(3), 22, 33, 44, 55);
    assert Apply(inst.agentCapacity, Str("Alice")) == Ok(Number(2));
    MaximumFromValues(inst, Str("Alice"), [22, 33, 44, 55], 2);
    TopTwoOfFour(22, 33, 44, 55);
  }

  /** Bob's maximum value: the top 3 of his values, 99 + 88 + 77. */
  lemma DictOfListsBobMaximum()
    ensures var r := DictOfLists();
            r.Ok? && MaximumValue(r.value, Str("Bob")) == Ok(264)
  {
    DictOfListsBuilt();
    var inst := DictOfLists().value;
    FourValues(inst, Str("Bob"), Int(0), Int(1), Int(2), Int(3), 66, 77, 88, 99);
    assert Apply(inst.agentCapacity, Str("Bob")) == Ok(Number(3));
    MaximumFromValues(inst, Str("Bob"), [66, 77, 88, 99], 3);
    TopThreeOfFour(66, 77, 88, 99);
  }

  const SmallValues := Dict([(Str("avi"), Dict([(Str("x"), Number(5)), (Str("y"), Number(4))])),
                             (Str("beni"), Dict([(Str("x"), Number(2)), (Str("y"), Number(3))]))])

  function ValuationsOnly(agentCapacities: Argument): Result<Instance> {
    NewInstance(Value(SmallValues), agentCapacities, Value(NoneData), Value(NoneData), Value(NoneData), None, None)
  }

  /** Without capacities an agent may take every item, each item has one seat, and priorities and entitlements are 1. */
  lemma DefaultCapacitiesExample()
    ensures var r := ValuationsOnly(Value(NoneData));
            && r.Ok?
            && r.value.agents == [Str("avi"), Str("beni")]
            && r.value.items == [Str("x"), Str("y")]
            && (forall a :: Apply(r.value.agentCapacity, a) == Ok(Number(2)))
            && (forall a :: Apply(r.value.agentPriority, a) == Ok(Number(1)))
            && (forall a :: Apply(r.value.agentEntitlement, a) == Ok(Number(1)))
            && (forall i :: Apply(r.value.itemCapacity, i) == Ok(Number(1)))
            && ValueLookup(r.value, Str("beni"), Str("y")) == Ok(Number(3))
  {
    assert DictKeys(SmallValues.entries) == [Str("avi"), Str("beni")];
    assert DictKeys(SmallValues.entries[0].1.entries) == [Str("x"), Str("y")];
  }

  /** A number given as the agent capacities is every agent's capacity. */
  lemma ConstantCapacityExample()
    ensures var r := ValuationsOnly(Value(Number(1)));
            r.Ok? && forall a :: Apply(r.value.agentCapacity, a) == Ok(Number(1))
  {
    assert DictKeys(SmallValues.entries) == [Str("avi"), Str("beni")];
    assert DictKeys(SmallValues.entries[0].1.entries) == [Str("x"), Str("y")];
  }
}
