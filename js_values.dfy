/** JavaScript values as the emulator sees them: the JSON-shaped data that flows
    through templates, handler results and configuration, with plain objects kept
    as their ordered list of own properties (the order `for...in` and
    `Object.keys` visit them in). */
module JsValues {

  datatype Option<+T> = None | Some(value: T)

  datatype Result<+T, +E> = Ok(value: T) | Err(error: E)

  datatype JsValue =
    | Undefined
    | Null
    | Bool(b: bool)
    | Num(n: real)
    | Str(s: string)
    | Arr(items: seq<JsValue>)
    | Obj(fields: seq<Entry>)  // a plain object, properties in enumeration order

  datatype Entry = Entry(key: string, value: JsValue)

  /** A thrown or reported JavaScript error: its constructor name, its `message`
      property ("" when missing or empty), what its `toString()` returns, and its
      `stack` property ("" when missing or empty). */
  datatype JsError = JsError(typeName: string, message: string, text: string, stack: string)

  /** JavaScript truthiness. NaN and -0 cannot be represented, so a number is
      falsy exactly when it is zero. */
  predicate Truthy(v: JsValue) {
    match v
    case Undefined => false
    case Null => false
    case Bool(b) => b
    case Num(n) => n != 0.0
    case Str(s) => s != ""
    case Arr(_) => true
    case Obj(_) => true
  }

  /** JavaScript's `a || b`: the first operand when it is truthy, else the second. */
  function Or(a: JsValue, b: JsValue): (r: JsValue)
    ensures Truthy(r) <==> Truthy(a) || Truthy(b)
    ensures r == a || r == b
  {
    if Truthy(a) then a else b
  }

  function Keys(es: seq<Entry>): (ks: seq<string>)
    ensures |ks| == |es|
    ensures forall i :: 0 <= i < |es| ==> ks[i] == es[i].key
  {
    if es == [] then [] else [es[0].key] + Keys(es[1..])
  }

  /** Appending a property appends its name. */
  lemma KeysAppend(es: seq<Entry>, e: Entry)
    ensures Keys(es + [e]) == Keys(es) + [e.key]
  {
    assert forall i :: 0 <= i < |es| ==> (es + [e])[i] == es[i];
  }

  /** Reading `o[k]` on a plain object: the value of the property named `k`, or
      `undefined` when there is none. */
  function Get(es: seq<Entry>, k: string): (r: JsValue)
    ensures k !in Keys(es) ==> r == Undefined
  {
    if es == [] then Undefined
    else if es[0].key == k then es[0].value
    else Get(es[1..], k)
  }

  /** Property read `v.k` on any value: only plain objects carry the properties
      this model reads; on every other value the read gives `undefined`. */
  function Field(v: JsValue, k: string): (r: JsValue)
    ensures v.Obj? ==> r == Get(v.fields, k)
    ensures !v.Obj? ==> r == Undefined
  {
    if v.Obj? then Get(v.fields, k) else Undefined
  }

  /** Reading a property finds its value when no earlier property has its name. */
  lemma {:induction false} GetAt(es: seq<Entry>, i: nat)
    requires i < |es|
    requires forall j :: 0 <= j < i ==> es[j].key != es[i].key
    ensures Get(es, es[i].key) == es[i].value
  {
    if i > 0 {
      assert es[0].key != es[i].key;
      assert es[1..][i - 1] == es[i];
      GetAt(es[1..], i - 1);
    }
  }

  /** Appending a property does not change what the existing names read. */
  lemma {:induction false} GetAppendKept(es: seq<Entry>, e: Entry, k: string)
    requires k in Keys(es)
    ensures Get(es + [e], k) == Get(es, k)
  {
    if es[0].key != k {
      assert (es + [e])[1..] == es[1..] + [e];
      GetAppendKept(es[1..], e, k);
    }
  }

  /** A property appended under a new name is read back. */
  lemma GetLast(es: seq<Entry>, e: Entry)
    requires e.key !in Keys(es)
    ensures Get(es + [e], e.key) == e.value
  {
    GetAt(es + [e], |es|);
  }

  /** Appending a property under a new name: its name comes last, it reads
      back, and every existing name reads as before. */
  lemma AppendedProperty(es: seq<Entry>, e: Entry)
    requires e.key !in Keys(es)
    ensures Keys(es + [e]) == Keys(es) + [e.key]
    ensures Get(es + [e], e.key) == e.value
    ensures forall k :: k in Keys(es) ==> Get(es + [e], k) == Get(es, k)
  {
    KeysAppend(es, e);
    GetLast(es, e);
    forall k | k in Keys(es) ensures Get(es + [e], k) == Get(es, k) {
      GetAppendKept(es, e, k);
    }
  }

  /** Assignment `o[k] = v`: an existing property keeps its place and takes the
      new value; a new property is appended. */
  function Put(es: seq<Entry>, k: string, v: JsValue): (r: seq<Entry>)
    ensures Get(r, k) == v
  {
    if es == [] then [Entry(k, v)]
    else if es[0].key == k then [Entry(k, v)] + es[1..]
    else [es[0]] + Put(es[1..], k, v)
  }

  /** An assignment keeps the property order, appending a new name at the end. */
  lemma {:induction false} PutKeys(es: seq<Entry>, k: string, v: JsValue)
    ensures k in Keys(es) ==> Keys(Put(es, k, v)) == Keys(es)
    ensures k !in Keys(es) ==> Keys(Put(es, k, v)) == Keys(es) + [k]
  {
    if es != [] {
      var r := Put(es, k, v);
      if es[0].key == k {
        assert Keys(r) == [k] + Keys(es[1..]);
      } else {
        PutKeys(es[1..], k, v);
        assert r[1..] == Put(es[1..], k, v);
        assert Keys(r) == [es[0].key] + Keys(r[1..]);
        assert Keys(es) == [es[0].key] + Keys(es[1..]);
      }
    }
  }

  /** An assignment leaves every other property as it was. */
  lemma {:induction false} PutOther(es: seq<Entry>, k: string, v: JsValue, j: string)
    requires j != k
    ensures Get(Put(es, k, v), j) == Get(es, j)
  {
    if es != [] && es[0].key != k {
      PutOther(es[1..], k, v, j);
      assert Put(es, k, v)[1..] == Put(es[1..], k, v);
    }
  }

  predicate DistinctKeys(es: seq<Entry>) {
    forall i, j :: 0 <= i < j < |es| ==> es[i].key != es[j].key
  }
}
