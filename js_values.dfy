/**
 * JavaScript values as the request handlers and the gateway client see them.
 * An object is the sequence of its own properties in property order, so that
 * `Object.keys`, property lookup and property assignment can be stated
 * exactly. Numbers are integers: floating point is not modelled.
 */
module JsValues {

  datatype Value =
    | Undefined
    | Null
    | Bool(b: bool)
    | Num(n: int)
    | Str(s: string)
    | Obj(entries: seq<Entry>)

  /** One own property of an object. */
  datatype Entry = Entry(key: string, value: Value)

  /** JavaScript truthiness: `undefined`, `null`, `false`, `0` and `""` are falsy. */
  predicate Truthy(v: Value) {
    match v
    case Undefined => false
    case Null => false
    case Bool(b) => b
    case Num(n) => n != 0
    case Str(s) => s != ""
    case Obj(_) => true
  }

  /** The properties of `o` by name; of two properties with one name, the first is seen. */
  function Props(o: seq<Entry>): map<string, Value> {
    if o == [] then map[] else Props(o[1..])[o[0].key := o[0].value]
  }

  /** `k in o`. */
  predicate HasKey(o: seq<Entry>, k: string) {
    k in Props(o)
  }

  /** `o[k]`, which is `undefined` when `o` has no property `k`. */
  function Get(o: seq<Entry>, k: string): Value {
    if k in Props(o) then Props(o)[k] else Undefined
  }

  /** No two properties share a name, as in every JavaScript object. */
  predicate DistinctKeys(o: seq<Entry>) {
    forall i, j :: 0 <= i < j < |o| ==> o[i].key != o[j].key
  }

  /** `Object.keys(o)`. */
  function Keys(o: seq<Entry>): (ks: seq<string>)
    ensures |ks| == |o| && forall i :: 0 <= i < |o| ==> ks[i] == o[i].key
  {
    if o == [] then [] else [o[0].key] + Keys(o[1..])
  }

  /** `Object.keys(o)` lists every property of `o`. */
  lemma KeysListed(o: seq<Entry>, k: string)
    requires HasKey(o, k)
    ensures k in Keys(o)
  {
    HasKeyIndex(o, k);
    var i :| 0 <= i < |o| && o[i].key == k;
    assert Keys(o)[i] == k;
  }

  /** `o` has a property `k` exactly when some entry is named `k`. */
  lemma {:induction false} HasKeyIndex(o: seq<Entry>, k: string)
    ensures HasKey(o, k) <==> exists i :: 0 <= i < |o| && o[i].key == k
  {
    if o != [] {
      HasKeyIndex(o[1..], k);
      if HasKey(o[1..], k) {
        var i :| 0 <= i < |o[1..]| && o[1..][i].key == k;
        assert o[i + 1].key == k;
      }
      if exists i :: 0 <= i < |o| && o[i].key == k {
        var i :| 0 <= i < |o| && o[i].key == k;
        if i > 0 {
          assert o[1..][i - 1].key == k;
        }
      }
    }
  }

  /** In an object without repeated names, `o[k]` is the value stored under `k`. */
  lemma {:induction false} GetDistinct(o: seq<Entry>, i: nat)
    requires DistinctKeys(o) && i < |o|
    ensures HasKey(o, o[i].key) && Get(o, o[i].key) == o[i].value
  {
    if i > 0 {
      assert DistinctKeys(o[1..]);
      GetDistinct(o[1..], i - 1);
    }
  }

  /** Properties and distinctness of `[e] + o` in terms of those of `o`. */
  lemma Cons(e: Entry, o: seq<Entry>)
    ensures Props([e] + o) == Props(o)[e.key := e.value]
    ensures DistinctKeys([e] + o) <==> !HasKey(o, e.key) && DistinctKeys(o)
  {
    assert ([e] + o)[1..] == o;
    HasKeyIndex(o, e.key);
    if DistinctKeys([e] + o) {
      forall i, j | 0 <= i < j < |o| ensures o[i].key != o[j].key {
        assert ([e] + o)[i + 1] == o[i] && ([e] + o)[j + 1] == o[j];
      }
      forall i | 0 <= i < |o| ensures o[i].key != e.key {
        assert ([e] + o)[0] == e && ([e] + o)[i + 1] == o[i];
      }
    }
    if !HasKey(o, e.key) && DistinctKeys(o) {
      forall i, j | 0 <= i < j < |[e] + o| ensures ([e] + o)[i].key != ([e] + o)[j].key {
        assert ([e] + o)[j] == o[j - 1];
        if i > 0 {
          assert ([e] + o)[i] == o[i - 1];
        }
      }
    }
  }

  /** Assignment to the first property: it is overwritten where it stands. */
  lemma PutHere(o: seq<Entry>, k: string, v: Value)
    requires o != [] && o[0].key == k
    ensures Props([Entry(k, v)] + o[1..]) == Props(o)[k := v]
    ensures HasKey(o, k)
    ensures DistinctKeys(o) ==> DistinctKeys([Entry(k, v)] + o[1..])
  {
    assert o == [o[0]] + o[1..];
    Cons(o[0], o[1..]);
    Cons(Entry(k, v), o[1..]);
  }

  /** Assignment past the first property leaves the first one in front. */
  lemma PutLater(o: seq<Entry>, k: string, v: Value, rest: seq<Entry>)
    requires o != [] && o[0].key != k
    requires Props(rest) == Props(o[1..])[k := v]
    requires !HasKey(o[1..], k) ==> rest == o[1..] + [Entry(k, v)]
    requires DistinctKeys(o[1..]) ==> DistinctKeys(rest)
    ensures Props([o[0]] + rest) == Props(o)[k := v]
    ensures !HasKey(o, k) ==> [o[0]] + rest == o + [Entry(k, v)]
    ensures DistinctKeys(o) ==> DistinctKeys([o[0]] + rest)
  {
    assert o == [o[0]] + o[1..];
    Cons(o[0], o[1..]);
    Cons(o[0], rest);
    UpdatesCommute(Props(o[1..]), k, v, o[0].key, o[0].value);
    if !HasKey(o, k) {
      AppendAfterHead(o, Entry(k, v));
    }
    if DistinctKeys(o) {
      assert DistinctKeys(o[1..]) && !HasKey(o[1..], o[0].key);
      assert DistinctKeys(rest) && !HasKey(rest, o[0].key);
    }
  }

  lemma UpdatesCommute(m: map<string, Value>, k1: string, v1: Value, k2: string, v2: Value)
    requires k1 != k2
    ensures m[k1 := v1][k2 := v2] == m[k2 := v2][k1 := v1]
  {
  }

  lemma AppendAfterHead(o: seq<Entry>, e: Entry)
    requires o != []
    ensures [o[0]] + (o[1..] + [e]) == o + [e]
  {
    assert o == [o[0]] + o[1..];
  }

  /**
   * `o[k] = v` for a key that is not an array index: overwrites the property
   * in place when it exists, appends it otherwise. (JavaScript lists
   * integer-like keys first, in ascending order; no caller assigns one.)
   */
  function Put(o: seq<Entry>, k: string, v: Value): (r: seq<Entry>)
    ensures Props(r) == Props(o)[k := v]
    ensures !HasKey(o, k) ==> r == o + [Entry(k, v)]
    ensures DistinctKeys(o) ==> DistinctKeys(r)
  {
    if o == [] then
      assert [Entry(k, v)][1..] == [];
      [Entry(k, v)]
    else if o[0].key == k then
      PutHere(o, k, v);
      [Entry(k, v)] + o[1..]
    else
      var rest := Put(o[1..], k, v);
      PutLater(o, k, v, rest);
      [o[0]] + rest
  }

  /**
   * Property access `v.k`: the property of an object, `undefined` on any
   * other value. JavaScript throws for `null` and `undefined`, so callers
   * must rule those two out before relying on the result.
   */
  function Prop(v: Value, k: string): (r: Value)
    ensures !v.Obj? ==> r == Undefined
  {
    match v
    case Obj(es) => Get(es, k)
    case _ => Undefined
  }

  /**
   * Two objects without repeated names that have the same properties hold the
   * same entries: they differ at most in property order.
   */
  lemma {:induction false} SamePropertiesSameEntries(a: seq<Entry>, b: seq<Entry>)
    requires DistinctKeys(a) && DistinctKeys(b)
    requires Props(a) == Props(b)
    ensures multiset(a) == multiset(b)
  {
    forall e | e in a ensures e in b {
      var i :| 0 <= i < |a| && a[i] == e;
      GetDistinct(a, i);
      HasKeyIndex(b, e.key);
      var j :| 0 <= j < |b| && b[j].key == e.key;
      GetDistinct(b, j);
    }
    forall e | e in b ensures e in a {
      var j :| 0 <= j < |b| && b[j] == e;
      GetDistinct(b, j);
      HasKeyIndex(a, e.key);
      var i :| 0 <= i < |a| && a[i].key == e.key;
      GetDistinct(a, i);
    }
    NoRepeatsMultiset(a);
    NoRepeatsMultiset(b);
    assert forall e :: multiset(a)[e] == multiset(b)[e];
  }

  /** In an object without repeated names every entry occurs once. */
  lemma {:induction false} NoRepeatsMultiset(a: seq<Entry>)
    requires DistinctKeys(a)
    ensures forall e :: multiset(a)[e] == if e in a then 1 else 0
  {
    if a != [] {
      assert DistinctKeys(a[1..]);
      NoRepeatsMultiset(a[1..]);
      assert a == [a[0]] + a[1..];
      assert a[0] !in a[1..];
      forall e ensures multiset(a)[e] == if e in a then 1 else 0 {
        assert multiset(a) == multiset{a[0]} + multiset(a[1..]);
        assert e in a <==> e == a[0] || e in a[1..];
      }
    }
  }
}
