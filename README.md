# fairpy core in Dafny: greedy min-makespan scheduling and course-allocation instances

This project models two parts of the fairpy library and proves properties of them.

**Min-makespan scheduling** (`fairpy/items/israels_MinMakespan_algorithm.py`). A `scedual` object holds a
cost matrix (`costs[m][j]` is the time machine `m` takes for job `j`) and a boolean assignment
matrix. `build` installs the costs and clears the assignments. `scedual(m, j)` marks one cell and raises
`KeyError` if that cell is already marked. `clear` starts over, and `loadOf(m)` sums the costs of the jobs on machine `m`.
There are two result strategies:
- the *assignment* output returns the set of assigned `(machine, job)` pairs;
- the *makespan* output returns the largest machine load.

`greedy` places the jobs in order. Each job goes to the machine with the smallest "cost of this job plus current
load", and ties go to the lowest machine index, as with Python's `min`. `MinMakespan` builds the output,
runs the algorithm and extracts the result.

The model is split across three modules:
- `Scheduling` (file `schedule.dfy`) has the `Schedule` class, whose assignment matrix is an `array2<bool>` updated in place, and the
  imperative methods `BestMachine`, `PlaceJob`, `Greedy` and `MinMakespan`.
- `ScheduleSpec` (file `schedule_spec.dfy`) gives each of them a value-level specification, with loads, the makespan, the pair set and the greedy run as
  functions on `seq<seq<bool>>`. The lemmas about the greedy algorithm are proved there.
- `ScheduleExamples` and `SchedulingDoctests` prove the documented examples.

**Course-allocation instances** (`fairpy/courses/instance.py`). `get_keys_and_mapping` turns any of the accepted
container shapes into an optional key list and an optional lookup function:
- `None`, a dict, a list, a 1-D array, a number or a callable each have their own case;
- anything else raises `TypeError`.

`get_keys_and_mapping_2d` does the same for a two-level valuation container. `Instance.__init__` settles which
agents and items an instance has: the first truthy candidate key list wins, and a missing list fails the assertion. It also fills in default
capacities, priorities and entitlements with `constant_function`. `agent_bundle_value` sums an agent's values
over a bundle. `agent_maximum_value` sums the agent's top `capacity` values.

The model is split across four modules:
- Python values are a `Data` datatype in module `InstanceContainers`. Exceptions are explicit `Result` errors, and a lookup function is a `Mapping` datatype whose
  application can fail.
- `CourseInstance` models the constructor and the value functions.
- `TopValues` holds the sum, descending sort and slicing used by `agent_maximum_value`, with the optimality proof of
  the top-k sum.
- `InstanceDoctests` proves the documented examples.

## Model

| member | source | states |
|---|---|---|
| Scheduling.Schedule.constructor | fairpy/items/israels_MinMakespan_algorithm.py:41-44 | a fresh output keeps its result strategy and is not yet built |
| Scheduling.Schedule.Shape | fairpy/items/israels_MinMakespan_algorithm.py:48-55 | the shape is (machines, jobs): the assignment matrix's dimensions and the cost matrix's rows and row length |
| Scheduling.Schedule.Build | fairpy/items/israels_MinMakespan_algorithm.py:63-67 | after build the costs are the given matrix, and the assignments are a fresh all-false grid of the matrix's shape |
| Scheduling.Schedule.Assign | fairpy/items/israels_MinMakespan_algorithm.py:70-73 | an already-marked cell raises KeyError and changes nothing; otherwise exactly that one cell becomes marked |
| Scheduling.Schedule.Clear | fairpy/items/israels_MinMakespan_algorithm.py:76 | clearing keeps the costs and resets every cell to unassigned |
| Scheduling.Schedule.LoadOf | fairpy/items/israels_MinMakespan_algorithm.py:79-80 | the load read from the array equals the specification load, the sum of the machine's assigned job costs |
| Scheduling.Schedule.Pairs | fairpy/items/israels_MinMakespan_algorithm.py:59-60 | iteration lists exactly the (machine, job) index pairs, each once, in lexicographic order |
| Scheduling.Schedule.ExtractResult | fairpy/items/israels_MinMakespan_algorithm.py:100-131 | the result read from the array equals the strategy's result on the current grid: the assigned pairs for the assignment output (100-105), the largest load for the makespan output (123-131) |
| Scheduling.BestMachine | fairpy/items/israels_MinMakespan_algorithm.py:185 | the chosen machine minimises cost plus load over all machines, and every lower-indexed machine scores strictly worse (first minimum) |
| Scheduling.PlaceJob | fairpy/items/israels_MinMakespan_algorithm.py:185 | one loop body of greedy performs one specification greedy step, including the KeyError outcome |
| Scheduling.Greedy | fairpy/items/israels_MinMakespan_algorithm.py:141-185 | the grid after greedy is the specification greedy run over all jobs; KeyError is reported exactly when that run hits a marked cell |
| Scheduling.MinMakespan | fairpy/items/israels_MinMakespan_algorithm.py:315-328 | build, then greedy, then extract: the result is the strategy's result on the greedy grid of the input |
| SchedulingDoctests.AssignmentDoctest | fairpy/items/israels_MinMakespan_algorithm.py:92-97 | assigning (0,0) and (1,1) on a 2x2 matrix yields the pair set {(0,0),(1,1)} |
| SchedulingDoctests.MakespanDoctest | fairpy/items/israels_MinMakespan_algorithm.py:113-121 | on the all-ones 2x2 matrix the makespan is 1 after the diagonal and 2 after adding (0,1) |
| SchedulingDoctests.GreedyMakespanDoctest | fairpy/items/israels_MinMakespan_algorithm.py:148-164 | greedy with one makespan output rebuilt for each of the four documented matrices gives makespans 3, 2, 2 and 3 |
| SchedulingDoctests.GreedyAssignmentDoctest | fairpy/items/israels_MinMakespan_algorithm.py:165-181 | the same four runs with an assignment output give the four documented pair sets |
| ScheduleSpec.EmptyGrid | fairpy/items/israels_MinMakespan_algorithm.py:67 | the zero assignment matrix has the requested shape and no marked cell |
| ScheduleSpec.SetCell | fairpy/items/israels_MinMakespan_algorithm.py:73 | marking a cell keeps the shape, marks that cell and leaves every other cell unchanged |
| ScheduleSpec.RowLoadSet | fairpy/items/israels_MinMakespan_algorithm.py:79-80 | marking an unmarked job adds exactly its cost to the machine's load sum |
| ScheduleSpec.LoadOfEmpty | fairpy/items/israels_MinMakespan_algorithm.py:76-80 | every machine's load is zero on a cleared grid |
| ScheduleSpec.LoadAfterSet | fairpy/items/israels_MinMakespan_algorithm.py:70-80 | scheduling (m, j) raises machine m's load by costs[m][j] and leaves every other load unchanged |
| ScheduleSpec.MaxLoad | fairpy/items/israels_MinMakespan_algorithm.py:123-131 | the maximum is the load of some machine and no machine's load exceeds it |
| ScheduleSpec.MakespanOfEmpty | fairpy/items/israels_MinMakespan_algorithm.py:123-131 | the makespan of the cleared grid is 0 |
| ScheduleSpec.Product | fairpy/items/israels_MinMakespan_algorithm.py:59-60 | the product lists exactly the in-range pairs in strictly increasing lexicographic order |
| ScheduleSpec.ProductListsOnce | fairpy/items/israels_MinMakespan_algorithm.py:59-60 | no pair appears twice in the product |
| ScheduleSpec.AssignedPairs | fairpy/items/israels_MinMakespan_algorithm.py:100-105 | a pair is in the set iff it is in range and its cell is marked |
| ScheduleSpec.Extract | fairpy/items/israels_MinMakespan_algorithm.py:100-131 | the assignment strategy returns exactly the marked pairs; the makespan strategy returns a value that bounds every machine's load and is attained by one |
| ScheduleSpec.ArgMinPrefix | fairpy/items/israels_MinMakespan_algorithm.py:185 | the index found is a minimum of the scores and strictly below every earlier score, as Python's min returns the first minimum |
| ScheduleSpec.FirstArgMinUnique | fairpy/items/israels_MinMakespan_algorithm.py:185 | any index that is a first minimum is the one the argmin returns |
| ScheduleSpec.GreedyRunStaysStopped | fairpy/items/israels_MinMakespan_algorithm.py:72 | once a KeyError has been raised, the outcome no longer changes |
| ScheduleSpec.GreedyStepKeepsInvariant | fairpy/items/israels_MinMakespan_algorithm.py:184-185 | from a grid in which jobs before n are placed once and later jobs are free, a step places job n on the picked machine without KeyError and keeps the invariant for n+1 |
| ScheduleSpec.GreedyFromEmpty | fairpy/items/israels_MinMakespan_algorithm.py:141-185 | starting from a cleared grid, after n jobs each of them is assigned to exactly one machine, the rest are untouched, and no KeyError occurred |
| ScheduleSpec.GreedyAssignsEveryJobOnce | fairpy/items/israels_MinMakespan_algorithm.py:141-185 | greedy after build never raises KeyError and assigns every job to exactly one machine |
| ScheduleSpec.GreedyPrefixStable | fairpy/items/israels_MinMakespan_algorithm.py:184-185 | decisions about earlier jobs are never changed by later steps |
| ScheduleSpec.GreedyOwner | fairpy/items/israels_MinMakespan_algorithm.py:185 | the machine that holds job j in the final grid is the one greedy picked when j was placed |
| ScheduleSpec.GreedyLoadsBefore | fairpy/items/israels_MinMakespan_algorithm.py:79-80 | the load a machine had when job j was placed equals its final load counted over jobs before j |
| ScheduleSpec.GreedyChoosesBest | fairpy/items/israels_MinMakespan_algorithm.py:141-185 | in the final greedy grid each job's machine minimised cost plus earlier load, and every lower-indexed machine was strictly worse |
| ScheduleExamples.GreedyExample1 | fairpy/items/israels_MinMakespan_algorithm.py:148-152 | greedy on [[1,2,5],[2,2,1],[2,3,5]] assigns {(0,0),(1,1),(1,2)} with makespan 3 |
| ScheduleExamples.GreedyExample2 | fairpy/items/israels_MinMakespan_algorithm.py:153-156 | greedy on [[1,2,1],[4,2,4],[2,3,2]] assigns {(0,0),(1,1),(0,2)} with makespan 2 |
| ScheduleExamples.GreedyExample3 | fairpy/items/israels_MinMakespan_algorithm.py:157-160 | greedy on a four-machine, three-job matrix assigns {(0,0),(3,1),(0,2)} with makespan 2; job 2 ties and the lower machine wins |
| ScheduleExamples.GreedyExample4 | fairpy/items/israels_MinMakespan_algorithm.py:161-164 | greedy on the 4x4 matrix assigns {(0,0),(3,1),(0,2),(1,3)} with makespan 3; job 3 ties and the lower machine wins |
| ScheduleExamples.TwoDiagonal | fairpy/items/israels_MinMakespan_algorithm.py:92-97 | the diagonal of the all-ones 2x2 matrix yields pairs {(0,0),(1,1)} and makespan 1 |
| ScheduleExamples.TwoDiagonalAndCorner | fairpy/items/israels_MinMakespan_algorithm.py:113-121 | adding (0,1) raises the makespan to 2 |
| InstanceContainers.PyIndex | fairpy/courses/instance.py:199-204 | an integer index is valid iff -n <= i < n, and a negative index counts from the end |
| InstanceContainers.DictGet | fairpy/courses/instance.py:196-198 | a lookup fails with KeyError iff no entry has the key; a found value belongs to an entry with that key |
| InstanceContainers.ConstantFunction | fairpy/courses/instance.py:273-274 | the constant function returns the constant for every key |
| InstanceContainers.KeysAndMapping | fairpy/courses/instance.py:162-213 | TypeError iff the container is of an unsupported type; None gives no keys and no function; a dict gives its keys and its own subscription, a list or array gives range(len) and its own subscription; a number gives no keys and the constant function of that number; a callable gives no keys and itself |
| InstanceContainers.KeysAndMapping2 | fairpy/courses/instance.py:216-267 | None gives no keys and no function; number, array and unknown types raise TypeError; an empty dict or list fails on reading its first row; a non-empty dict or list succeeds iff its first row is accepted by the one-dimensional helper (otherwise with that error), with the dict's keys or the list's indices as agent keys, the first row's keys as item keys and two-level subscription as the function; a callable gives no keys and itself |
| InstanceContainers.DictGetAt | fairpy/courses/instance.py:196-198 | with distinct keys, looking up the i-th key returns the i-th value |
| InstanceContainers.KeysLookUpElements | fairpy/courses/instance.py:196-204 | the returned function maps the i-th returned key to the container's i-th element |
| InstanceContainers.MissingKeyRaises | fairpy/courses/instance.py:196-198 | the dict mapping raises KeyError on a key that is not among its keys |
| InstanceContainers.NegativeIndexWraps | fairpy/courses/instance.py:199-204 | list and array mappings accept negative indices from the end and raise IndexError out of range |
| InstanceContainers.KeylessMappings | fairpy/courses/instance.py:205-210 | a number or callable gives no keys; the number's lookup returns that number for every key, and the callable is used as is |
| InstanceContainers.TwoLevelLookup | fairpy/courses/instance.py:254-261 | the item keys come from the first row; a two-level lookup is the row lookup followed by the item lookup, and a row error propagates |
| InstanceContainers.FirstRowErrorPropagates | fairpy/courses/instance.py:254-261 | a first row of unsupported type makes the 2-D call raise TypeError |
| InstanceDoctests.KeysOfDict | fairpy/courses/instance.py:168-173 | a dict gives its keys and a lookup by key |
| InstanceDoctests.KeysOfList | fairpy/courses/instance.py:175-180 | a list gives its indices and a lookup by index |
| InstanceDoctests.KeysOfCallable | fairpy/courses/instance.py:182-186 | a callable gives no keys and is used as the lookup |
| InstanceDoctests.KeysOfNumber | fairpy/courses/instance.py:188-192 | a number gives no keys and a constant lookup |
| InstanceDoctests.KeysOfDictOfDicts | fairpy/courses/instance.py:223-232 | a dict of dicts gives agent keys, item keys and a two-level lookup |
| InstanceDoctests.KeysOfListOfLists | fairpy/courses/instance.py:234-243 | a list of lists gives index keys on both levels |
| InstanceDoctests.KeysOfCallable2 | fairpy/courses/instance.py:245-250 | a two-argument callable gives no keys and is used as the lookup |
| CourseInstance.OrAllPicksFirstTruthy | fairpy/courses/instance.py:86-91 | a chain of `or` yields the first truthy candidate, or the last candidate when none is truthy |
| CourseInstance.NewInstance | fairpy/courses/instance.py:75-102 | the valuation helper's error propagates, and any error of the four other helpers is TypeError; with every helper accepted, a failure is an AssertionError; explicit truthy agents or items win; a capacity, priority, entitlement or item capacity given as None defaults to the number of items or to 1, and a given one is the helper's lookup function itself; the valuation lookup is the 2-D helper's function, absent iff valuations are None |
| CourseInstance.InstanceKeys | fairpy/courses/instance.py:86-91 | agents and items are the first truthy candidate list, and construction fails with AssertionError iff an `or` chain ends in None |
| CourseInstance.ItemValues | fairpy/courses/instance.py:105-109 | the bundle's values are looked up item by item, and the first failing lookup's error is raised |
| CourseInstance.ValueNumbersOk | fairpy/courses/instance.py:105-109 | the bundle's values can be summed iff every item's value is a number |
| CourseInstance.BundleValueAsSum | fairpy/courses/instance.py:105-109 | a bundle's value is the sum of its items' values |
| CourseInstance.BundleValueAppend | fairpy/courses/instance.py:105-109 | bundle value is additive over concatenation |
| CourseInstance.BundleValueReorder | fairpy/courses/instance.py:105-109 | bundle value does not depend on item order (any permutation gives the same value) |
| CourseInstance.MaximumValueIsMaximum | fairpy/courses/instance.py:111-116 | no bundle drawn from the items with exactly capacity-many items is worth more than the maximum value |
| CourseInstance.MaximumValueOfAllItems | fairpy/courses/instance.py:111-116 | with no capacity or a capacity of at least the number of items, the maximum value is the value of all items |
| CourseInstance.DefaultCapacityTakesAllItems | fairpy/courses/instance.py:93-116 | with the default agent capacity, the maximum value is the value of all items |
| TopValues.SumPermutation | fairpy/courses/instance.py:109 | a sum is invariant under permutation |
| TopValues.SortDesc | fairpy/courses/instance.py:116 | sorting in reverse gives a descending permutation of the input |
| TopValues.SortedUnique | fairpy/courses/instance.py:116 | two descending sequences with the same elements are equal, so the sorted list is determined by its contents |
| TopValues.SliceTo | fairpy/courses/instance.py:116 | `[0:k]` is a prefix of length min(k, n), or of length max(n+k, 0) for negative k |
| TopValues.SortedPrefixDominates | fairpy/courses/instance.py:116 | any sub-multiset of a descending list sums to at most the list's prefix of the same length |
| TopValues.TopSumIsMaximum | fairpy/courses/instance.py:111-116 | the top-k sum bounds the sum of every k-element sub-multiset |
| TopValues.TopSumIsAttained | fairpy/courses/instance.py:111-116 | the top-k values are themselves drawn from the input |
| TopValues.TopSumOfAll | fairpy/courses/instance.py:111-116 | for k at least the length, the top-k sum is the total |
| TopValues.MapSubMultiset | fairpy/courses/instance.py:109-116 | mapping a sub-multiset of items to values gives a sub-multiset of the values |
| InstanceDoctests.DictOfDictsBuilt | fairpy/courses/instance.py:27-43 | the dict-of-dicts instance has agents Alice and Bob and items c1 and c2 |
| InstanceDoctests.DictOfDictsLookups | fairpy/courses/instance.py:27-43 | its capacities and values are 2, 5 and 33 as documented |
| InstanceDoctests.DictOfDictsBundle | fairpy/courses/instance.py:27-43 | Bob's value for the bundle c1, c2 is 77 |
| InstanceDoctests.DictOfDictsAliceMaximum | fairpy/courses/instance.py:27-43 | Alice's maximum value is 33 |
| InstanceDoctests.DictOfDictsBobMaximum | fairpy/courses/instance.py:27-43 | Bob's maximum value is 77 |
| InstanceDoctests.DictOfListsBuilt | fairpy/courses/instance.py:45-59 | the dict-of-lists instance has agents Alice and Bob, items 0 to 3, and looks capacities and values up in the given containers |
| InstanceDoctests.DictOfListsLookups | fairpy/courses/instance.py:45-59 | its capacities and values are 2, 3 and 55 as documented |
| InstanceDoctests.DictOfListsAliceMaximum | fairpy/courses/instance.py:45-59 | Alice's maximum value is 99 |
| InstanceDoctests.DictOfListsBobMaximum | fairpy/courses/instance.py:45-59 | Bob's maximum value is 264 |
| InstanceDoctests.DefaultCapacitiesExample | fairpy/courses/instance.py:62-69 | with only valuations given, agents are avi and beni, items x and y, every agent's capacity is 2 (the number of items), and every priority, entitlement and item capacity is 1; beni values y at 3 |
| InstanceDoctests.ConstantCapacityExample | fairpy/courses/instance.py:70-72 | the number 1 as agent capacities gives every agent capacity 1 |

## Left out

- `apprx`, `LinearProgram`, `Round` and `RandomTesting` in `fairpy/items/israels_MinMakespan_algorithm.py` are not modelled. They depend on a linear-program solver, graph matching, floating point and randomness. `MinMakespan` is modelled with `greedy` as its algorithm.
- Logging, the `__main__` block, `Instance.random`, `random_valuation` and `normalized_valuation` are not modelled. They are I/O, randomness or floating point.
- `@cache` on `agent_maximum_value` and the debug copies of the constructor arguments do not change any result, so they are left out.
- Costs and values are integers, not floats. Loads are exact sums, and no rounding is modelled.
- Scheduling.Schedule.Build: requires at least one machine. Python's `max` over zero machines raises `ValueError` in the makespan output, and that case is left out.
- Scheduling.Schedule.Assign: requires indices within the matrix. numpy's negative indices and its `IndexError` on out-of-range indices are not modelled. Calling any operation before `build` (an `AttributeError` in Python) is excluded by the `Built()` precondition.
- Callables passed as containers are total functions here. A callable that raises, or a lookup function with side effects, is not modelled.
- The `Unsupported` data case stands for every value that `get_keys_and_mapping` rejects. Subscripting it raises `TypeError`, but Python strings and tuples would be indexable.
- Arrays are one-dimensional integer arrays. A 2-D numpy valuation matrix is rejected with `TypeError`, as it is in the source, since it falls to the final `else`.
- CourseInstance.MaximumValue: all values must be numbers before the capacity is read. In Python, a non-numeric value can make `sorted` raise, or be sliced away before `sum` sees it. The model always raises `TypeError` on the first non-numeric value.
- Boolean values, which Python treats as the numbers 0 and 1, are not a separate case.
