/** JavaScript values as the console's code handles them: `any` in the
    source becomes `Value`. Plain objects and `Map`s are ordered association
    lists, because the order of their entries is observable (Object.entries,
    Map iteration, the order of options on screen). */
module Js {
  import opened Wrappers

  datatype Value =
    | Undef
    | Null
    | Bool(b: bool)
    | Num(n: int)
    | Str(s: string)
    | List(items: seq<Value>)
    | Obj(props: seq<(string, Value)>)
    | JsMap(entries: seq<(Value, Value)>)
    | Fn(fn: Renderer)

  /** A plain object: its own properties in order. */
  type Props = seq<(string, Value)>

  /** Function values are opaque: the model only tells apart the renderers
      the schema code creates itself and names every other function. */
  datatype Renderer =
    | ScopeLabel                            // `(_h, scope) => scope.label`
    | CallOptionFormatter(formatter: Value) // `(h, scope) => optionFormatter(h, scope)`
    | DefaultCellFormatter                  // the table column's default formatter
    | Opaque(id: string)                    // any caller-supplied function

  /** JavaScript truthiness (NaN is not representable here). */
  predicate Truthy(v: Value) {
    match v
    case Undef => false
    case Null => false
    case Bool(b) => b
    case Num(n) => n != 0
    case Str(s) => s != ""
    case _ => true
  }

  // ---------------------------------------------------------------------
  // Ordered association lists: the entries of an object or of a Map.
  // ---------------------------------------------------------------------

  function Keys<K, V>(e: seq<(K, V)>): (ks: seq<K>)
    ensures |ks| == |e|
  {
    if e == [] then [] else [e[0].0] + Keys(e[1..])
  }

  /** No key occurs twice: true of every object and every Map. */
  ghost predicate UniqueKeys<K, V>(e: seq<(K, V)>) {
    forall i, j :: 0 <= i < j < |e| ==> e[i].0 != e[j].0
  }

  /** Property read / `Map.prototype.get`: the value stored under `k`. */
  function Get<K(==), V>(e: seq<(K, V)>, k: K): (r: Option<V>)
    ensures r.Some? <==> k in Keys(e)
  {
    if e == [] then None
    else if e[0].0 == k then Some(e[0].1)
    else Get(e[1..], k)
  }

  /** `obj.name`: a missing property reads as `undefined`. */
  function Field(obj: Props, name: string): Value {
    Get(obj, name).GetOr(Undef)
  }

  /** Property assignment / `Map.prototype.set`: an existing key keeps its
      place and takes the new value, a new key goes last. */
  function Put<K(==), V>(e: seq<(K, V)>, k: K, v: V): (r: seq<(K, V)>)
    ensures Get(r, k) == Some(v)
    ensures k !in Keys(e) ==> r == e + [(k, v)]
  {
    if e == [] then [(k, v)]
    else if e[0].0 == k then [(k, v)] + e[1..]
    else [e[0]] + Put(e[1..], k, v)
  }

  lemma {:induction false} KeysAt<K, V>(e: seq<(K, V)>, i: nat)
    requires i < |e|
    ensures Keys(e)[i] == e[i].0
  {
    if i > 0 {
      KeysAt(e[1..], i - 1);
    }
  }

  lemma {:induction false} KeysAppend<K, V>(e: seq<(K, V)>, f: seq<(K, V)>)
    ensures Keys(e + f) == Keys(e) + Keys(f)
  {
    if e != [] {
      assert (e + f)[1..] == e[1..] + f;
      KeysAppend(e[1..], f);
    } else {
      assert e + f == f;
    }
  }

  /** In a list without repeated keys, every entry is what a lookup of its
      key finds. */
  lemma {:induction false} GetAt<K, V>(e: seq<(K, V)>, i: nat)
    requires UniqueKeys(e) && i < |e|
    ensures Get(e, e[i].0) == Some(e[i].1)
  {
    if i > 0 {
      assert e[0].0 != e[i].0;
      GetAt(e[1..], i - 1);
    }
  }

  /** An entry whose key no earlier entry has is what a lookup of that key
      finds. */
  lemma {:induction false} GetFirst<K, V>(e: seq<(K, V)>, i: nat)
    requires i < |e| && forall j :: 0 <= j < i ==> e[j].0 != e[i].0
    ensures Get(e, e[i].0) == Some(e[i].1)
  {
    if i > 0 {
      GetFirst(e[1..], i - 1);
    }
  }

  /** Assigning one key leaves every other key's value alone. */
  lemma {:induction false} PutOther<K, V>(e: seq<(K, V)>, k: K, v: V, k': K)
    requires k' != k
    ensures Get(Put(e, k, v), k') == Get(e, k')
  {
    if e != [] && e[0].0 != k {
      PutOther(e[1..], k, v, k');
    }
  }

  /** Assigning a key that is present keeps the key order. */
  lemma {:induction false} PutKeys<K, V>(e: seq<(K, V)>, k: K, v: V)
    requires k in Keys(e)
    ensures Keys(Put(e, k, v)) == Keys(e)
  {
    if e[0].0 != k {
      PutKeys(e[1..], k, v);
    }
  }

  /** Assigning a key never introduces a repeated key. */
  lemma {:induction false} PutUnique<K, V>(e: seq<(K, V)>, k: K, v: V)
    requires UniqueKeys(e)
    ensures UniqueKeys(Put(e, k, v))
  {
    var r := Put(e, k, v);
    if k in Keys(e) {
      PutKeys(e, k, v);
      forall i, j | 0 <= i < j < |r| ensures r[i].0 != r[j].0 {
        KeysAt(r, i); KeysAt(r, j); KeysAt(e, i); KeysAt(e, j);
      }
    } else {
      forall i | 0 <= i < |e| ensures e[i].0 != k {
        KeysAt(e, i);
      }
    }
  }

  /** `{ ...a, ...b }`: the properties of `a` in their order, then every
      property of `b` assigned on top of them in `b`'s order. */
  function Spread<K(==), V>(a: seq<(K, V)>, b: seq<(K, V)>): seq<(K, V)>
    decreases |b|
  {
    if b == [] then a else Spread(Put(a, b[0].0, b[0].1), b[1..])
  }

  /** A key `b` does not mention keeps its value from `a`. */
  lemma {:induction false} SpreadKeeps<K, V>(a: seq<(K, V)>, b: seq<(K, V)>, k: K)
    requires k !in Keys(b)
    ensures Get(Spread(a, b), k) == Get(a, k)
    decreases |b|
  {
    if b != [] {
      PutOther(a, b[0].0, b[0].1, k);
      SpreadKeeps(Put(a, b[0].0, b[0].1), b[1..], k);
    }
  }

  /** A key of `b` takes `b`'s value (the later spread wins). */
  lemma {:induction false} SpreadOverrides<K, V>(a: seq<(K, V)>, b: seq<(K, V)>, k: K)
    requires UniqueKeys(b) && k in Keys(b)
    ensures Get(Spread(a, b), k) == Get(b, k)
    decreases |b|
  {
    var a' := Put(a, b[0].0, b[0].1);
    if k == b[0].0 {
      assert k !in Keys(b[1..]) by {
        forall i | 0 <= i < |b[1..]| ensures Keys(b[1..])[i] != k {
          KeysAt(b[1..], i);
        }
      }
      SpreadKeeps(a', b[1..], k);
    } else {
      SpreadOverrides(a', b[1..], k);
    }
  }

  /** Spreading keeps the keys of `a` first and in order, adds only keys of
      `b`, and never repeats a key. */
  lemma {:induction false} SpreadShape<K, V>(a: seq<(K, V)>, b: seq<(K, V)>)
    ensures |a| <= |Spread(a, b)| && Keys(Spread(a, b))[..|a|] == Keys(a)
    ensures forall k :: k in Keys(Spread(a, b)) <==> k in Keys(a) || k in Keys(b)
    ensures UniqueKeys(a) ==> UniqueKeys(Spread(a, b))
    decreases |b|
  {
    if b != [] {
      var a' := Put(a, b[0].0, b[0].1);
      if b[0].0 in Keys(a) {
        PutKeys(a, b[0].0, b[0].1);
      } else {
        KeysAppend(a, [(b[0].0, b[0].1)]);
      }
      if UniqueKeys(a) {
        PutUnique(a, b[0].0, b[0].1);
      }
      SpreadShape(a', b[1..]);
      assert Keys(Spread(a, b))[..|a'|][..|a|] == Keys(Spread(a, b))[..|a|];
    }
  }

  /** The two spread rules for every key at once. */
  lemma SpreadLaws<K, V>(a: seq<(K, V)>, b: seq<(K, V)>)
    ensures forall k :: k !in Keys(b) ==> Get(Spread(a, b), k) == Get(a, k)
    ensures UniqueKeys(b) ==> forall k :: k in Keys(b) ==> Get(Spread(a, b), k) == Get(b, k)
  {
    forall k | k !in Keys(b) ensures Get(Spread(a, b), k) == Get(a, k) {
      SpreadKeeps(a, b, k);
    }
    if UniqueKeys(b) {
      forall k | k in Keys(b) ensures Get(Spread(a, b), k) == Get(b, k) {
        SpreadOverrides(a, b, k);
      }
    }
  }

  /** Without repeated keys, an entry's key does not occur before it. */
  lemma KeyNotBefore<K, V>(e: seq<(K, V)>, i: nat)
    requires UniqueKeys(e) && i < |e|
    ensures e[i].0 !in Keys(e[..i])
  {
    forall j | 0 <= j < i ensures Keys(e[..i])[j] != e[i].0 {
      KeysAt(e[..i], j);
    }
  }
}
