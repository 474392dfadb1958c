/** `make_serializable`: turns a tree of NumPy/pandas values into plain
    Python values that JSON and Firestore accept.

    A float is finite, infinite or NaN. An ndarray carries the nested list
    its `tolist()` returns (NumPy does that conversion). A pandas Timestamp
    carries the text its `isoformat()` returns. Any object the function does
    not recognise is `Opaque` and comes back unchanged. */
module Serialization {
  import opened Common

  datatype Float = Finite(x: real) | Infinite(positive: bool) | NaN

  /** The dictionary keys considered: strings, integers (Python or NumPy),
      booleans and None. */
  datatype PyKey = KStr(s: string) | KInt(i: int) | KBool(b: bool) | KNone

  datatype PyValue =
    | PyDict(entries: seq<(PyKey, PyValue)>)
    | PyList(items: seq<PyValue>)
    | PyStr(text: string)
    | PyInt(n: int)
    | PyFloat(f: Float)
    | PyBool(flag: bool)
    | PyNone
    | NpInt(npInt: int)
    | NpFloat(npFloat: Float)
    | NpBool(npBool: bool)
    | NdArray(tolist: seq<PyValue>)
    | Timestamp(iso: string)
    | Missing
    | Opaque(name: string)

  /** `str(k)` for a dictionary key. */
  function KeyString(k: PyKey): string {
    match k
    case KStr(s) => s
    case KInt(i) => IntToDecimal(i)
    case KBool(b) => if b then "True" else "False"
    case KNone => "None"
  }

  /** A dict comprehension over `pairs`: each pair is stored in turn, so a
      repeated key keeps its first position and takes its last value. */
  function DictFromPairs<K(==,!new), V>(pairs: seq<(K, V)>): (r: seq<(K, V)>)
    ensures DistinctKeys(r)
    ensures forall e :: e in r ==> e in pairs
    decreases |pairs|
  {
    if pairs == [] then []
    else
      var n := |pairs| - 1;
      var acc := DictFromPairs(pairs[..n]);
      DictSetDistinct(acc, pairs[n].0, pairs[n].1);
      assert forall e :: e in pairs[..n] ==> e in pairs;
      assert (pairs[n].0, pairs[n].1) in pairs;
      DictSetWithin(acc, pairs[n].0, pairs[n].1, pairs);
      DictSet(acc, pairs[n].0, pairs[n].1)
  }

  /** What the conversion leaves: no recognised NumPy scalar, ndarray or
      Timestamp and no NaN anywhere, and every dict has distinct string keys.
      An unrecognised object, other NumPy and pandas types among them
      (`datetime64`, `Timedelta`, `Period`, ...), stays as an `Opaque` leaf. */
  predicate Native(v: PyValue)
    decreases v
  {
    match v
    case PyDict(entries) =>
      DistinctKeys(entries)
      && forall i :: 0 <= i < |entries| ==> entries[i].0.KStr? && Native(entries[i].1)
    case PyList(items) => forall i :: 0 <= i < |items| ==> Native(items[i])
    case PyFloat(f) => !f.NaN?
    case PyStr(_) => true
    case PyInt(_) => true
    case PyBool(_) => true
    case PyNone => true
    case Opaque(_) => true
    case _ => false
  }

  function MakeSerializable(v: PyValue): (r: PyValue)
    ensures Native(r)
    decreases v
  {
    match v
    case PyDict(entries) =>
      var pairs := seq(|entries|, i requires 0 <= i < |entries| =>
                         (KStr(KeyString(entries[i].0)), MakeSerializable(entries[i].1)));
      var d := DictFromPairs(pairs);
      assert forall i :: 0 <= i < |d| ==> d[i] in pairs;
      PyDict(d)
    case PyList(items) => PyList(seq(|items|, i requires 0 <= i < |items| => MakeSerializable(items[i])))
    case NpInt(n) => PyInt(n)
    case NpFloat(f) => if f.NaN? then PyNone else PyFloat(f)
    case NpBool(b) => PyBool(b)
    case NdArray(list) => PyList(seq(|list|, i requires 0 <= i < |list| => MakeSerializable(list[i])))
    case Timestamp(iso) => PyStr(iso)
    case Missing => PyNone
    case PyFloat(f) => if f.NaN? then PyNone else v
    case PyNone => PyNone
    case PyStr(_) => v
    case PyInt(_) => v
    case PyBool(_) => v
    case Opaque(_) => v
  }

  /** The NumPy scalar rules: NumPy integers, floats and booleans become
      Python ones, and a NumPy NaN becomes None. */
  lemma NumpyScalars(n: int, f: Float, b: bool)
    ensures MakeSerializable(NpInt(n)) == PyInt(n)
    ensures MakeSerializable(NpFloat(f)) == if f.NaN? then PyNone else PyFloat(f)
    ensures MakeSerializable(NpBool(b)) == PyBool(b)
  {
  }

  /** The pandas scalar rules: a Timestamp becomes its ISO text and the
      missing values become None. */
  lemma PandasScalars(iso: string)
    ensures MakeSerializable(Timestamp(iso)) == PyStr(iso)
    ensures MakeSerializable(Missing) == PyNone
  {
  }

  /** A Python NaN becomes None; every other Python scalar, and any object
      the function does not recognise, is returned unchanged. */
  lemma NativeScalars(n: int, f: Float, b: bool, s: string, name: string)
    ensures MakeSerializable(PyFloat(f)) == if f.NaN? then PyNone else PyFloat(f)
    ensures MakeSerializable(PyStr(s)) == PyStr(s) && MakeSerializable(PyInt(n)) == PyInt(n)
    ensures MakeSerializable(PyBool(b)) == PyBool(b) && MakeSerializable(Opaque(name)) == Opaque(name)
  {
  }


  /** A list keeps its length and converts element-wise; an ndarray is
      converted as the list `tolist()` gives. */
  lemma ListsConvertElementwise(items: seq<PyValue>)
    ensures var r := MakeSerializable(PyList(items));
            r.PyList? && |r.items| == |items|
            && forall i :: 0 <= i < |items| ==> r.items[i] == MakeSerializable(items[i])
    ensures MakeSerializable(NdArray(items)) == MakeSerializable(PyList(items))
  {
  }

  /** Storing pairs whose keys are already distinct keeps them as they are. */
  lemma {:induction false} DictFromDistinctPairs<K(!new), V>(pairs: seq<(K, V)>)
    requires DistinctKeys(pairs)
    ensures DictFromPairs(pairs) == pairs
    decreases |pairs|
  {
    if pairs != [] {
      var n := |pairs| - 1;
      var init := pairs[..n];
      assert init + [pairs[n]] == pairs;
      assert DistinctKeys(init) by {
        forall i, j | 0 <= i < j < |init|
          ensures init[i].0 != init[j].0
        {
          assert init[i] == pairs[i] && init[j] == pairs[j];
        }
      }
      DictFromDistinctPairs(init);
      assert forall i :: 0 <= i < |init| ==> init[i].0 != pairs[n].0 by {
        forall i | 0 <= i < |init|
          ensures init[i].0 != pairs[n].0
        {
          assert init[i] == pairs[i];
        }
      }
      assert Lookup(init, pairs[n].0).None?;
    }
  }

  /** The value stored under `k` by the last pair with that key. */
  function LastValue<K(==), V>(pairs: seq<(K, V)>, k: K): Option<V>
    decreases |pairs|
  {
    if pairs == [] then None
    else if pairs[|pairs| - 1].0 == k then Some(pairs[|pairs| - 1].1)
    else LastValue(pairs[..|pairs| - 1], k)
  }

  /** In a dict comprehension the last pair with a given key wins. */
  lemma {:induction false} DictFromPairsLookup<K(!new), V>(pairs: seq<(K, V)>, k: K)
    ensures Lookup(DictFromPairs(pairs), k) == LastValue(pairs, k)
    decreases |pairs|
  {
    if pairs != [] {
      DictFromPairsLookup(pairs[..|pairs| - 1], k);
      var n := |pairs| - 1;
      DictSetLookup(DictFromPairs(pairs[..n]), pairs[n].0, pairs[n].1);
    }
  }

  /** A dict's keys become `str(k)` and its values are converted; when the
      keys' strings are distinct nothing else changes, entry by entry. */
  lemma DictKeysStringified(entries: seq<(PyKey, PyValue)>)
    requires forall i, j :: 0 <= i < j < |entries| ==> KeyString(entries[i].0) != KeyString(entries[j].0)
    ensures var r := MakeSerializable(PyDict(entries));
            r.PyDict? && |r.entries| == |entries|
            && forall i :: 0 <= i < |entries| ==>
                 r.entries[i] == (KStr(KeyString(entries[i].0)), MakeSerializable(entries[i].1))
  {
    var pairs := seq(|entries|, i requires 0 <= i < |entries| =>
                       (KStr(KeyString(entries[i].0)), MakeSerializable(entries[i].1)));
    DictFromDistinctPairs(pairs);
  }

  lemma CollidingPairs(entries: seq<(PyKey, PyValue)>, pairs: seq<(PyKey, PyValue)>)
    requires entries == [(KInt(1), PyStr("a")), (KStr("1"), PyStr("b"))]
    requires pairs == [(KStr("1"), PyStr("a")), (KStr("1"), PyStr("b"))]
    ensures seq(|entries|, i requires 0 <= i < |entries| =>
              (KStr(KeyString(entries[i].0)), MakeSerializable(entries[i].1))) == pairs
  {
    assert KeyString(KInt(1)) == "1";
  }

  lemma LaterValueWins(k: PyKey, a: PyValue, b: PyValue)
    ensures DictFromPairs([(k, a), (k, b)]) == [(k, b)]
  {
    var pairs := [(k, a), (k, b)];
    assert pairs[..1] == [(k, a)];
    assert [(k, a)][..0] == [];
    assert DictFromPairs([(k, a)]) == [(k, a)];
  }

  /** When two keys print alike (`1` and `"1"`), the first position is kept
      and the later value wins. */
  lemma KeyCollision()
    ensures MakeSerializable(PyDict([(KInt(1), PyStr("a")), (KStr("1"), PyStr("b"))]))
         == PyDict([(KStr("1"), PyStr("b"))])
  {
    var entries := [(KInt(1), PyStr("a")), (KStr("1"), PyStr("b"))];
    var pairs := [(KStr("1"), PyStr("a")), (KStr("1"), PyStr("b"))];
    CollidingPairs(entries, pairs);
    LaterValueWins(KStr("1"), PyStr("a"), PyStr("b"));
  }

  /** Native values are left as they are. */
  lemma {:induction false} NativeUnchanged(v: PyValue)
    requires Native(v)
    ensures MakeSerializable(v) == v
    decreases v
  {
    match v
    case PyDict(entries) =>
      forall i | 0 <= i < |entries|
        ensures MakeSerializable(entries[i].1) == entries[i].1
      {
        NativeUnchanged(entries[i].1);
      }
      var pairs := seq(|entries|, i requires 0 <= i < |entries| =>
                         (KStr(KeyString(entries[i].0)), MakeSerializable(entries[i].1)));
      assert pairs == entries;
      DictFromDistinctPairs(entries);
    case PyList(items) =>
      forall i | 0 <= i < |items|
        ensures MakeSerializable(items[i]) == items[i]
      {
        NativeUnchanged(items[i]);
      }
      assert seq(|items|, i requires 0 <= i < |items| => MakeSerializable(items[i])) == items;
    case _ =>
  }

  /** The output never holds NaN or a NumPy value, and converting it again
      changes nothing. */
  lemma MakeSerializableIdempotent(v: PyValue)
    ensures Native(MakeSerializable(v))
    ensures MakeSerializable(MakeSerializable(v)) == MakeSerializable(v)
  {
    NativeUnchanged(MakeSerializable(v));
  }
}
