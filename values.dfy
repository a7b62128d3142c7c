/**
 * JSON-like values as the pipeline passes them around (Python dicts, lists, strings, numbers,
 * booleans and None), with Python's truthiness and an insertion-ordered dictionary.
 * Python's int and float are both `Num`, so a number does not record whether it was written
 * as an int or as a float.
 */
module Values {
  import opened Wrappers
  import Text

  datatype Value =
    | Null
    | Bool(b: bool)
    | Num(n: real)
    | Str(s: string)
    | List(items: seq<Value>)
    | Obj(fields: seq<(string, Value)>)

  /** A Python dict: its entries in insertion order. */
  type Fields = seq<(string, Value)>

  /** `len(v)` is defined: a string, list or dict. */
  predicate Sized(v: Value) {
    v.Str? || v.List? || v.Obj?
  }

  /** The TypeError of `len(v)` on a number, a boolean or None. */
  const NoLenError := "object has no len()"

  /** The AttributeError of `v.values()` on a value that is not a dict. */
  const NoValuesError := "object has no attribute 'values'"

  /** Python's `bool(v)`. */
  predicate Truthy(v: Value) {
    match v
    case Null => false
    case Bool(b) => b
    case Num(n) => n != 0.0
    case Str(s) => s != ""
    case List(items) => items != []
    case Obj(fields) => fields != []
  }

  function Keys(f: Fields): (r: seq<string>)
    ensures |r| == |f| && forall i :: 0 <= i < |f| ==> r[i] == f[i].0
  {
    if f == [] then [] else [f[0].0] + Keys(f[1..])
  }

  /** Python's `k in d`. */
  predicate HasKey(f: Fields, k: string) {
    k in Keys(f)
  }

  /** The entries of a dict have distinct keys. */
  predicate DistinctKeys(f: Fields) {
    forall i, j :: 0 <= i < j < |f| ==> f[i].0 != f[j].0
  }

  /** The position of key `k`, if present. */
  function IndexOf(f: Fields, k: string): (r: Option<nat>)
    ensures r.Some? ==> r.value < |f| && f[r.value].0 == k && forall j :: 0 <= j < r.value ==> f[j].0 != k
    ensures r.None? <==> !HasKey(f, k)
  {
    if f == [] then None
    else if f[0].0 == k then Some(0)
    else match IndexOf(f[1..], k)
      case Some(i) => Some(i + 1)
      case None => None
  }

  /** `d[k]` when present. */
  function Get(f: Fields, k: string): (r: Option<Value>)
    ensures r.Some? <==> HasKey(f, k)
  {
    if f == [] then None
    else if f[0].0 == k then Some(f[0].1)
    else
      assert Keys(f) == [f[0].0] + Keys(f[1..]);
      Get(f[1..], k)
  }

  /** `Get` finds the entry at the position `IndexOf` reports. */
  lemma {:induction false} GetIndexOf(f: Fields, k: string)
    ensures Get(f, k) == match IndexOf(f, k) case Some(i) => Some(f[i].1) case None => None
  {
    if f != [] && f[0].0 != k {
      GetIndexOf(f[1..], k);
    }
  }

  /** Python's `d.get(k)`: `None` for a missing key. */
  function GetOrNull(f: Fields, k: string): Value {
    Get(f, k).GetOr(Null)
  }

  /** Python's `d[k] = v`: an existing key keeps its position and takes the new value; a new key goes last. */
  function Put(f: Fields, k: string, v: Value): Fields
    decreases |f|
  {
    if f == [] then [(k, v)]
    else if f[0].0 == k then [(k, v)] + f[1..]
    else [f[0]] + Put(f[1..], k, v)
  }

  /** An existing key keeps the keys as they are; a new key is appended. */
  lemma {:induction false} PutShape(f: Fields, k: string, v: Value)
    ensures HasKey(f, k) ==> |Put(f, k, v)| == |f| && Keys(Put(f, k, v)) == Keys(f)
    ensures !HasKey(f, k) ==> Put(f, k, v) == f + [(k, v)]
    decreases |f|
  {
    if f != [] {
      assert Keys(f) == [f[0].0] + Keys(f[1..]);
      var r := Put(f, k, v);
      if f[0].0 == k {
        assert Keys(r) == [k] + Keys(r[1..]) && r[1..] == f[1..];
      } else {
        PutShape(f[1..], k, v);
        assert Keys(r) == [f[0].0] + Keys(r[1..]) && r[1..] == Put(f[1..], k, v);
        if !HasKey(f, k) {
          assert f == [f[0]] + f[1..];
        }
      }
    }
  }

  /** The values of a dict, in insertion order (Python's `d.values()`). */
  function ValuesOf(f: Fields): (r: seq<Value>)
    ensures |r| == |f| && forall i :: 0 <= i < |f| ==> r[i] == f[i].1
  {
    if f == [] then [] else [f[0].1] + ValuesOf(f[1..])
  }

  lemma {:induction false} PutGet(f: Fields, k: string, v: Value, k2: string)
    ensures Get(Put(f, k, v), k2) == if k2 == k then Some(v) else Get(f, k2)
    decreases |f|
  {
    if f != [] && f[0].0 != k {
      PutGet(f[1..], k, v, k2);
      var r := Put(f, k, v);
      assert r[0] == f[0] && r[1..] == Put(f[1..], k, v);
    }
  }

  lemma {:induction false} IndexOfFirst(f: Fields, k: string, i: nat)
    requires i < |f| && f[i].0 == k && forall j :: 0 <= j < i ==> f[j].0 != k
    ensures IndexOf(f, k) == Some(i)
  {
    if i > 0 {
      IndexOfFirst(f[1..], k, i - 1);
    }
  }

  /** Two dicts whose keys match `k` at the same positions find `k` at the same position. */
  lemma {:induction false} IndexOfSameKeys(f: Fields, g: Fields, k: string)
    requires |f| <= |g| <= |f| + 1
    requires forall j :: 0 <= j < |f| ==> (f[j].0 == k) == (g[j].0 == k)
    requires |g| > |f| ==> g[|f|].0 != k
    ensures IndexOf(g, k) == IndexOf(f, k)
  {
    if f == [] {
      if g != [] {
        assert IndexOf(g[1..], k) == None;
      }
    } else if f[0].0 != k {
      IndexOfSameKeys(f[1..], g[1..], k);
    }
  }

  /** The entry at `i` is what `Get` finds when no earlier entry has its key. */
  lemma GetAt(f: Fields, i: nat)
    requires i < |f| && forall j :: 0 <= j < i ==> f[j].0 != f[i].0
    ensures Get(f, f[i].0) == Some(f[i].1)
  {
    IndexOfFirst(f, f[i].0, i);
    GetIndexOf(f, f[i].0);
  }

  /** An entry is found when every earlier key differs from its key in length. */
  lemma GetAtLength(f: Fields, i: nat)
    requires i < |f| && forall j :: 0 <= j < i ==> |f[j].0| != |f[i].0|
    ensures Get(f, f[i].0) == Some(f[i].1)
  {
    GetAt(f, i);
  }

  /** Both entries of a two-entry dict are found when their keys differ in length. */
  lemma GetPair(f: Fields)
    requires |f| == 2 && |f[0].0| != |f[1].0|
    ensures Get(f, f[0].0) == Some(f[0].1) && Get(f, f[1].0) == Some(f[1].1)
  {
    GetAt(f, 0);
    GetAt(f, 1);
  }

  /** An entry with another key does not change what the key looks up. */
  lemma GetSkip(f: Fields, k: string)
    requires f != [] && f[0].0 != k
    ensures Get(f, k) == Get(f[1..], k)
  {
  }

  /** A key no entry has is absent. */
  lemma NotKey(f: Fields, k: string)
    requires forall j :: 0 <= j < |f| ==> f[j].0 != k
    ensures !HasKey(f, k)
  {
  }

  /** Python's `d.update(entries)`: each entry put in turn. */
  function PutAll(f: Fields, entries: Fields): (r: Fields)
    decreases |entries|
  {
    if entries == [] then f else PutAll(Put(f, entries[0].0, entries[0].1), entries[1..])
  }

  /** `update` leaves every key it does not mention as it was. */
  lemma {:induction false} PutAllOther(f: Fields, entries: Fields, k: string)
    requires !HasKey(entries, k)
    ensures Get(PutAll(f, entries), k) == Get(f, k)
    decreases |entries|
  {
    if entries != [] {
      assert Keys(entries) == [entries[0].0] + Keys(entries[1..]);
      PutGet(f, entries[0].0, entries[0].1, k);
      PutAllOther(Put(f, entries[0].0, entries[0].1), entries[1..], k);
    }
  }

  /** With distinct keys, `update` makes every key it mentions take its entry's value. */
  lemma {:induction false} PutAllGet(f: Fields, entries: Fields, k: string)
    requires DistinctKeys(entries) && HasKey(entries, k)
    ensures Get(PutAll(f, entries), k) == Get(entries, k)
    decreases |entries|
  {
    assert Keys(entries) == [entries[0].0] + Keys(entries[1..]);
    var rest := entries[1..];
    if entries[0].0 == k {
      assert !HasKey(rest, k) by {
        forall j | 0 <= j < |rest| ensures rest[j].0 != k {
          assert rest[j] == entries[j + 1];
        }
      }
      PutGet(f, k, entries[0].1, k);
      PutAllOther(Put(f, k, entries[0].1), rest, k);
    } else {
      assert DistinctKeys(rest) by {
        forall i, j | 0 <= i < j < |rest| ensures rest[i].0 != rest[j].0 {
          assert rest[i] == entries[i + 1] && rest[j] == entries[j + 1];
        }
      }
      PutAllGet(Put(f, entries[0].0, entries[0].1), rest, k);
    }
  }

  lemma PutDistinct(f: Fields, k: string, v: Value)
    requires DistinctKeys(f)
    ensures DistinctKeys(Put(f, k, v))
  {
    var r := Put(f, k, v);
    PutShape(f, k, v);
    if !HasKey(f, k) {
      forall i | 0 <= i < |f| ensures f[i].0 != k {
        assert Keys(f)[i] == f[i].0;
      }
    } else {
      forall i, j | 0 <= i < j < |r| ensures r[i].0 != r[j].0 {
        assert Keys(r)[i] == r[i].0 && Keys(r)[j] == r[j].0;
      }
    }
  }

  /** The numeric value Python's `==` and `float()` see in a number or a boolean. */
  function NumericValue(v: Value): Option<real> {
    match v
    case Num(n) => Some(n)
    case Bool(b) => Some(if b then 1.0 else 0.0)
    case _ => None
  }

  /**
   * Python's `==` on the values the pipeline compares: numbers and booleans compare by value
   * (`True == 1`, `1 == 1.0`); everything else compares structurally.
   */
  predicate PyEq(a: Value, b: Value) {
    if NumericValue(a).Some? && NumericValue(b).Some? then NumericValue(a) == NumericValue(b)
    else a == b
  }

  /**
   * Python's `float(v)`: numbers and booleans convert, strings go through `parseFloat` (Python's
   * float syntax), everything else is a TypeError (None).
   */
  function PyFloat(v: Value, parseFloat: string -> Option<real>): Option<real> {
    match v
    case Str(s) => parseFloat(s)
    case _ => NumericValue(v)
  }

  /**
   * Python's `repr(v)` inside a container; `numText` renders a number. An int and a float of
   * equal value get the same text, where Python writes `100` and `100.0`.
   */
  function Repr(v: Value, numText: real -> string): string
    decreases v, 1
  {
    match v
    case Str(s) => "'" + s + "'"
    case _ => ToStr(v, numText)
  }

  /**
   * Python's `str(v)`; `numText` renders a number. An int and a float of equal value get the
   * same text, where Python writes `100` and `100.0`.
   */
  function ToStr(v: Value, numText: real -> string): string
    decreases v, 0
  {
    match v
    case Null => "None"
    case Bool(b) => if b then "True" else "False"
    case Num(n) => numText(n)
    case Str(s) => s
    case List(items) =>
      "[" + Text.Join(", ", seq(|items|, i requires 0 <= i < |items| => Repr(items[i], numText))) + "]"
    case Obj(fields) =>
      "{" + Text.Join(", ", seq(|fields|, i requires 0 <= i < |fields| =>
        "'" + fields[i].0 + "': " + Repr(fields[i].1, numText))) + "}"
  }

  /** Appending an entry leaves the keys already present as they were and adds its own key. */
  lemma {:induction false} GetAppend(f: Fields, e: (string, Value), k: string)
    ensures Get(f + [e], k) == if HasKey(f, k) then Get(f, k) else if e.0 == k then Some(e.1) else None
  {
    if f != [] {
      assert Keys(f) == [f[0].0] + Keys(f[1..]);
      if f[0].0 != k {
        assert (f + [e])[1..] == f[1..] + [e];
        GetAppend(f[1..], e, k);
      }
    }
  }
}
