/**
 * The container helpers of the course-allocation instance: turning a dict, a
 * list, a numpy vector, a number, a callable or None into a pair (keys, lookup
 * function), in one and in two dimensions.
 *
 * Python values are modelled by the datatype Data (the kinds the helpers tell
 * apart), callables by Dafny functions, and a lookup function by the datatype
 * Mapping together with Apply (one argument) and Apply2 (two arguments), which
 * say what calling it does, including the exception it raises.
 */
module InstanceContainers {

  datatype Option<T> = None | Some(value: T)

  /** The Python exceptions these helpers and the instance can raise. */
  datatype PyError = TypeError | KeyError | IndexError | StopIteration | AssertionError

  datatype Result<T> = Ok(value: T) | Raise(error: PyError)

  /** A dictionary key or a list index: an agent or item name, or an integer. */
  datatype Key = Str(s: string) | Int(i: int)

  /** A Python value: None, an integer, a dict (entries in insertion order), a list, a 1-D numpy vector of integers, or any other type. */
  datatype Data =
    | NoneData
    | Number(n: int)
    | Dict(entries: seq<(Key, Data)>)
    | List(elems: seq<Data>)
    | NdArray(cells: seq<int>)
    | Unsupported

  /** What the helpers are given: a value, or a callable taking one or two arguments. */
  datatype Argument = Value(data: Data) | Callable1(f: Key -> Data) | Callable2(g: (Key, Key) -> Data)

  /** A lookup function: a container's __getitem__, a constant function, or a callable of one or two arguments. */
  datatype Mapping = GetItem(container: Data) | Constant(constant: Data) | Call1(f: Key -> Data) | Call2(g: (Key, Key) -> Data)

  /** The keys a one-dimensional helper returns and its lookup function; None stands for Python's None. */
  datatype Keyed = Keyed(keys: Option<seq<Key>>, func: Option<Mapping>)

  /** The first-level keys, the second-level keys and the lookup function of the two-dimensional helper. */
  datatype Keyed2 = Keyed2(keys1: Option<seq<Key>>, keys2: Option<seq<Key>>, func: Option<Mapping>)

  // ---------------------------------------------------------------------------
  // Subscription

  /**
   * The position Python's index i designates in a sequence of length n: i
   * itself when 0 <= i < n, i + n when -n <= i < 0, and none otherwise.
   */
  function PyIndex(i: int, n: nat): (p: Option<nat>)
    ensures p.Some? <==> -(n as int) <= i < n
    ensures p.Some? ==> p.value < n && (p.value == i || p.value == i + n)
  {
    if 0 <= i < n then Some(i)
    else if -(n as int) <= i < 0 then Some(i + n)
    else None
  }

  /** dict[k]: the value stored under k, or KeyError. */
  function DictGet(entries: seq<(Key, Data)>, k: Key): (r: Result<Data>)
    ensures r.Raise? <==> forall i :: 0 <= i < |entries| ==> entries[i].0 != k
    ensures r.Raise? ==> r.error == KeyError
    ensures r.Ok? ==> (k, r.value) in entries
  {
    if |entries| == 0 then Raise(KeyError)
    else if entries[0].0 == k then Ok(entries[0].1)
    else DictGet(entries[1..], k)
  }

  /**
   * container[k]. A dict looks k up; a list or vector takes an integer index,
   * negative ones counting from the end, and raises IndexError outside the
   * range; a list given a non-integer raises TypeError and a vector raises
   * IndexError; every other value is not subscriptable (TypeError).
   */
  function Subscript(d: Data, k: Key): (r: Result<Data>)
  {
    match d
    case Dict(entries) => DictGet(entries, k)
    case List(elems) =>
      if !k.Int? then Raise(TypeError)
      else
        var p := PyIndex(k.i, |elems|);
        if p.Some? then Ok(elems[p.value]) else Raise(IndexError)
    case NdArray(cells) =>
      if !k.Int? then Raise(IndexError)
      else
        var p := PyIndex(k.i, |cells|);
        if p.Some? then Ok(Number(cells[p.value])) else Raise(IndexError)
    case _ => Raise(TypeError)
  }

  /** Calling a lookup function with one argument; a two-argument callable called so raises TypeError. */
  function Apply(m: Mapping, k: Key): Result<Data>
  {
    match m
    case GetItem(c) => Subscript(c, k)
    case Constant(v) => Ok(v)
    case Call1(f) => Ok(f(k))
    case Call2(_) => Raise(TypeError)
  }

  /** Calling a lookup function with two arguments: container[a][i] for a container, g(a, i) for a two-argument callable. */
  function Apply2(m: Mapping, a: Key, i: Key): Result<Data>
  {
    match m
    case GetItem(c) =>
      var row := Subscript(c, a);
      if row.Raise? then Raise(row.error) else Subscript(row.value, i)
    case Call2(g) => Ok(g(a, i))
    case _ => Raise(TypeError)
  }

  /** constant_function: the function that maps every key to v. */
  function ConstantFunction(v: Data): (m: Mapping)
    ensures forall k :: Apply(m, k) == Ok(v)
  {
    Constant(v)
  }

  // ---------------------------------------------------------------------------
  // Keys

  /** The keys of a dict in insertion order. */
  function DictKeys(entries: seq<(Key, Data)>): (ks: seq<Key>)
    ensures |ks| == |entries|
    ensures forall i :: 0 <= i < |entries| ==> ks[i] == entries[i].0
  {
    seq(|entries|, i requires 0 <= i < |entries| => entries[i].0)
  }

  /** range(n) as keys. */
  function IndexKeys(n: nat): (ks: seq<Key>)
    ensures |ks| == n
    ensures forall i :: 0 <= i < n ==> ks[i] == Int(i)
  {
    seq(n, i requires 0 <= i < n => Int(i))
  }

  /** A dict has each key once (as every Python dict does). */
  predicate DistinctKeys(entries: seq<(Key, Data)>) {
    forall i, j :: 0 <= i < j < |entries| ==> entries[i].0 != entries[j].0
  }

  /** get_keys_and_mapping. */
  function KeysAndMapping(arg: Argument): (r: Result<Keyed>)
    ensures r.Raise? <==> arg.Value? && arg.data == Unsupported
    ensures r.Raise? ==> r.error == TypeError
    ensures r.Ok? ==> (r.value.keys.Some? <==> arg.Value? && (arg.data.Dict? || arg.data.List? || arg.data.NdArray?))
    ensures r.Ok? ==> (r.value.func.None? <==> arg.Value? && arg.data == NoneData)
    ensures arg == Value(NoneData) ==> r == Ok(Keyed(None, None))
    ensures arg.Value? && arg.data.Dict? ==> r == Ok(Keyed(Some(DictKeys(arg.data.entries)), Some(GetItem(arg.data))))
    ensures arg.Value? && arg.data.List? ==> r == Ok(Keyed(Some(IndexKeys(|arg.data.elems|)), Some(GetItem(arg.data))))
    ensures arg.Value? && arg.data.NdArray? ==> r == Ok(Keyed(Some(IndexKeys(|arg.data.cells|)), Some(GetItem(arg.data))))
    ensures arg.Value? && arg.data.Number? ==> r == Ok(Keyed(None, Some(ConstantFunction(arg.data))))
    ensures arg.Callable1? ==> r == Ok(Keyed(None, Some(Call1(arg.f))))
    ensures arg.Callable2? ==> r == Ok(Keyed(None, Some(Call2(arg.g))))
  {
    match arg
    case Value(d) =>
      (match d
       case NoneData => Ok(Keyed(None, None))
       case Dict(entries) => Ok(Keyed(Some(DictKeys(entries)), Some(GetItem(d))))
       case List(elems) => Ok(Keyed(Some(IndexKeys(|elems|)), Some(GetItem(d))))
       case NdArray(cells) => Ok(Keyed(Some(IndexKeys(|cells|)), Some(GetItem(d))))
       case Number(_) => Ok(Keyed(None, Some(ConstantFunction(d))))
       case Unsupported => Raise(TypeError))
    case Callable1(f) => Ok(Keyed(None, Some(Call1(f))))
    case Callable2(g) => Ok(Keyed(None, Some(Call2(g))))
  }

  /** get_keys_and_mapping_2d. The second-level keys are those of the first row. */
  function KeysAndMapping2(arg: Argument): (r: Result<Keyed2>)
    ensures arg.Value? && (arg.data.Number? || arg.data.NdArray? || arg.data.Unsupported?) ==> r.Raise? && r.error == TypeError
    ensures arg.Value? && arg.data == Dict([]) ==> r.Raise? && r.error == StopIteration
    ensures arg.Value? && arg.data == List([]) ==> r.Raise? && r.error == IndexError
    ensures r.Ok? ==> (r.value.func.None? <==> arg.Value? && arg.data == NoneData)
    ensures r.Ok? && arg.Value? && arg.data.Dict? ==> r.value.keys1 == Some(DictKeys(arg.data.entries))
    ensures r.Ok? && arg.Value? && arg.data.List? ==> r.value.keys1 == Some(IndexKeys(|arg.data.elems|))
    ensures arg.Value? && arg.data.Dict? && |arg.data.entries| > 0 ==>
              var first := KeysAndMapping(Value(arg.data.entries[0].1));
              && (r.Ok? <==> first.Ok?)
              && (r.Raise? ==> r.error == first.error)
              && (r.Ok? ==> r.value.keys2 == first.value.keys && r.value.func == Some(GetItem(arg.data)))
    ensures arg.Value? && arg.data.List? && |arg.data.elems| > 0 ==>
              var first := KeysAndMapping(Value(arg.data.elems[0]));
              && (r.Ok? <==> first.Ok?)
              && (r.Raise? ==> r.error == first.error)
              && (r.Ok? ==> r.value.keys2 == first.value.keys && r.value.func == Some(GetItem(arg.data)))
    ensures arg.Callable1? ==> r == Ok(Keyed2(None, None, Some(Call1(arg.f))))
    ensures arg.Callable2? ==> r == Ok(Keyed2(None, None, Some(Call2(arg.g))))
    ensures arg == Value(NoneData) ==> r == Ok(Keyed2(None, None, None))
  {
    match arg
    case Value(d) =>
      (match d
       case NoneData => Ok(Keyed2(None, None, None))
       case Dict(entries) =>
         if |entries| == 0 then Raise(StopIteration)
         else
           var first := KeysAndMapping(Value(entries[0].1));
           if first.Raise? then Raise(first.error)
           else Ok(Keyed2(Some(DictKeys(entries)), first.value.keys, Some(GetItem(d))))
       case List(elems) =>
         if |elems| == 0 then Raise(IndexError)
         else
           var first := KeysAndMapping(Value(elems[0]));
           if first.Raise? then Raise(first.error)
           else Ok(Keyed2(Some(IndexKeys(|elems|)), first.value.keys, Some(GetItem(d))))
       case _ => Raise(TypeError))
    case Callable1(f) => Ok(Keyed2(None, None, Some(Call1(f))))
    case Callable2(g) => Ok(Keyed2(None, None, Some(Call2(g))))
  }

  // ---------------------------------------------------------------------------
  // Keys and lookup agree

  /** In a dict with distinct keys, the i-th key looks up the i-th value. */
  lemma {:induction false} DictGetAt(entries: seq<(Key, Data)>, i: nat)
    requires DistinctKeys(entries) && i < |entries|
    ensures DictGet(entries, entries[i].0) == Ok(entries[i].1)
  {
    if i > 0 {
      assert entries[0].0 != entries[i].0;
      assert DistinctKeys(entries[1..]) by {
        forall a, b | 0 <= a < b < |entries| - 1 ensures entries[1..][a].0 != entries[1..][b].0 {
          assert entries[a + 1].0 != entries[b + 1].0;
        }
      }
      DictGetAt(entries[1..], i - 1);
    }
  }

  /** The elements a container's keys look up, in key order. */
  function Elements(d: Data): (es: seq<Data>)
    requires d.Dict? || d.List? || d.NdArray?
    ensures d.Dict? ==> |es| == |d.entries|
    ensures d.List? ==> es == d.elems
    ensures d.NdArray? ==> |es| == |d.cells|
  {
    match d
    case Dict(entries) => seq(|entries|, i requires 0 <= i < |entries| => entries[i].1)
    case List(elems) => elems
    case NdArray(cells) => seq(|cells|, i requires 0 <= i < |cells| => Number(cells[i]))
  }

  /**
   * The keys get_keys_and_mapping returns and its lookup function agree: the
   * i-th key looks up the i-th element (for a dict, its i-th value).
   */
  lemma KeysLookUpElements(arg: Argument, i: nat)
    requires arg.Value? && (arg.data.Dict? ==> DistinctKeys(arg.data.entries))
    requires KeysAndMapping(arg).Ok? && KeysAndMapping(arg).value.keys.Some?
    requires i < |KeysAndMapping(arg).value.keys.value|
    ensures Apply(KeysAndMapping(arg).value.func.value, KeysAndMapping(arg).value.keys.value[i]) == Ok(Elements(arg.data)[i])
  {
    if arg.data.Dict? {
      DictGetAt(arg.data.entries, i);
    }
  }

  /** A key that is not among a dict's keys raises KeyError. */
  lemma MissingKeyRaises(entries: seq<(Key, Data)>, k: Key)
    requires k !in DictKeys(entries)
    ensures Apply(KeysAndMapping(Value(Dict(entries))).value.func.value, k) == Raise(KeyError)
  {
    var ks := DictKeys(entries);
    forall i | 0 <= i < |entries| ensures entries[i].0 != k {
      assert ks[i] == entries[i].0;
    }
  }

  /**
   * For a list or vector of length n, index i - n looks up the same element
   * as index i (Python's negative indexing), and indices outside -n .. n-1
   * raise IndexError.
   */
  lemma NegativeIndexWraps(arg: Argument, i: nat, j: int)
    requires arg.Value? && (arg.data.List? || arg.data.NdArray?)
    requires i < |Elements(arg.data)|
    ensures Apply(KeysAndMapping(arg).value.func.value, Int(i - |Elements(arg.data)|)) == Ok(Elements(arg.data)[i])
    ensures j < -|Elements(arg.data)| || j >= |Elements(arg.data)| ==> Apply(KeysAndMapping(arg).value.func.value, Int(j)) == Raise(IndexError)
  {
  }

  /** A number or a one-argument callable yields no keys and a function: the constant one, or the callable itself. */
  lemma KeylessMappings(arg: Argument, k: Key)
    requires arg.Callable1? || (arg.Value? && arg.data.Number?)
    ensures KeysAndMapping(arg).Ok? && KeysAndMapping(arg).value.keys.None?
    ensures arg.Callable1? ==> Apply(KeysAndMapping(arg).value.func.value, k) == Ok(arg.f(k))
    ensures arg.Value? ==> Apply(KeysAndMapping(arg).value.func.value, k) == Ok(arg.data)
  {
  }

  /**
   * For a dict or list of rows, the second-level keys are the keys of the first
   * row and the two-argument lookup is container[a][i].
   */
  lemma TwoLevelLookup(arg: Argument, a: Key, i: Key)
    requires arg.Value? && (arg.data.Dict? || arg.data.List?)
    requires KeysAndMapping2(arg).Ok?
    ensures arg.data.Dict? ==> KeysAndMapping2(arg).value.keys2 == KeysAndMapping(Value(arg.data.entries[0].1)).value.keys
    ensures arg.data.List? ==> KeysAndMapping2(arg).value.keys2 == KeysAndMapping(Value(arg.data.elems[0])).value.keys
    ensures Subscript(arg.data, a).Ok? ==> Apply2(KeysAndMapping2(arg).value.func.value, a, i) == Subscript(Subscript(arg.data, a).value, i)
    ensures Subscript(arg.data, a).Raise? ==> Apply2(KeysAndMapping2(arg).value.func.value, a, i) == Raise(Subscript(arg.data, a).error)
  {
  }

  /** When the first row is of a kind the one-dimensional helper refuses, the two-dimensional helper raises its error. */
  lemma FirstRowErrorPropagates(arg: Argument)
    requires arg.Value? && ((arg.data.Dict? && |arg.data.entries| > 0 && arg.data.entries[0].1 == Unsupported) || (arg.data.List? && |arg.data.elems| > 0 && arg.data.elems[0] == Unsupported))
    ensures KeysAndMapping2(arg).Raise? && KeysAndMapping2(arg).error == TypeError
  {
  }
}
