/**
 * The part of `qs.stringify(data, { format: 'RFC1738', sort })` that the
 * gateway client relies on: the top-level keys are visited in sorted order,
 * a key whose value is `undefined` yields nothing, and the segments of all
 * keys are joined with '&'. How one key and its value are escaped (RFC 1738
 * percent-encoding with space as '+', brackets for nested objects) is the
 * library's business and stays a parameter, an `EntryEncoder`.
 */
module Qs {
  import opened JsValues

  /** The `key=value` segments qs produces for one top-level key and its value. */
  type EntryEncoder = (string, Value) -> seq<string>

  /**
   * Lexicographic order by character code. It stands for the client's sort
   * callback `a.localeCompare(b)`, whose order depends on the locale.
   */
  predicate LexLe(a: string, b: string) {
    a == [] || (b != [] && (a[0] < b[0] || (a[0] == b[0] && LexLe(a[1..], b[1..]))))
  }

  lemma {:induction false} LexLeReflexive(a: string)
    ensures LexLe(a, a)
  {
    if a != [] {
      LexLeReflexive(a[1..]);
    }
  }

  lemma {:induction false} LexLeTotal(a: string, b: string)
    ensures LexLe(a, b) || LexLe(b, a)
  {
    if a != [] && b != [] && a[0] == b[0] {
      LexLeTotal(a[1..], b[1..]);
    }
  }

  lemma {:induction false} LexLeAntisymmetric(a: string, b: string)
    requires LexLe(a, b) && LexLe(b, a)
    ensures a == b
  {
    if a != [] && b != [] {
      LexLeAntisymmetric(a[1..], b[1..]);
      assert a == [a[0]] + a[1..] && b == [b[0]] + b[1..];
    }
  }

  lemma {:induction false} LexLeTransitive(a: string, b: string, c: string)
    requires LexLe(a, b) && LexLe(b, c)
    ensures LexLe(a, c)
  {
    if a != [] && b != [] && c != [] && a[0] == b[0] == c[0] {
      LexLeTransitive(a[1..], b[1..], c[1..]);
    }
  }

  predicate SortedByKey(s: seq<Entry>) {
    forall i, j :: 0 <= i < j < |s| ==> LexLe(s[i].key, s[j].key)
  }

  /** An entry whose key is below every key of a sorted sequence can lead it. */
  lemma SortedCons(x: Entry, s: seq<Entry>)
    requires SortedByKey(s)
    requires forall y :: y in s ==> LexLe(x.key, y.key)
    ensures SortedByKey([x] + s)
  {
    var r := [x] + s;
    forall i, j | 0 <= i < j < |r| ensures LexLe(r[i].key, r[j].key) {
      assert r[j] == s[j - 1];
      if i > 0 {
        assert r[i] == s[i - 1];
      }
    }
  }

  /** An entry not above the head of a sorted sequence can lead it. */
  lemma InsertAtFront(e: Entry, s: seq<Entry>)
    requires SortedByKey(s) && s != [] && LexLe(e.key, s[0].key)
    ensures SortedByKey([e] + s)
  {
    forall y | y in s ensures LexLe(e.key, y.key) {
      var j :| 0 <= j < |s| && s[j] == y;
      if j > 0 {
        LexLeTransitive(e.key, s[0].key, y.key);
      }
    }
    SortedCons(e, s);
  }

  /** The head of a sorted sequence can lead the tail with an entry above it inserted. */
  lemma InsertBehindHead(e: Entry, s: seq<Entry>, rest: seq<Entry>)
    requires SortedByKey(s) && s != [] && !LexLe(e.key, s[0].key)
    requires SortedByKey(rest) && multiset(rest) == multiset(s[1..]) + multiset{e}
    ensures SortedByKey([s[0]] + rest)
    ensures multiset([s[0]] + rest) == multiset(s) + multiset{e}
  {
    LexLeTotal(e.key, s[0].key);
    forall x | x in rest ensures LexLe(s[0].key, x.key) {
      assert x in multiset(rest);
      if x != e {
        assert x in multiset(s[1..]);
        var j :| 0 <= j < |s[1..]| && s[1..][j] == x;
        assert s[j + 1] == x;
      }
    }
    SortedCons(s[0], rest);
    assert s == [s[0]] + s[1..];
  }

  /** Inserts `e` into a key-sorted sequence, before the first key it does not exceed. */
  function InsertByKey(e: Entry, s: seq<Entry>): (r: seq<Entry>)
    requires SortedByKey(s)
    ensures SortedByKey(r)
    ensures multiset(r) == multiset(s) + multiset{e}
  {
    if s == [] then [e]
    else if LexLe(e.key, s[0].key) then
      InsertAtFront(e, s);
      [e] + s
    else
      var rest := InsertByKey(e, s[1..]);
      InsertBehindHead(e, s, rest);
      [s[0]] + rest
  }

  /** The keys of `s` in sorted order, as `Object.keys(s).sort(...)` visits them. */
  function SortByKey(s: seq<Entry>): (r: seq<Entry>)
    ensures SortedByKey(r)
    ensures multiset(r) == multiset(s)
  {
    if s == [] then []
    else
      assert s == [s[0]] + s[1..];
      InsertByKey(s[0], SortByKey(s[1..]))
  }

  /** No two different entries of `m` share a key. */
  predicate KeyFunctional(m: multiset<Entry>) {
    forall x, y :: x in m && y in m && x.key == y.key ==> x == y
  }

  lemma DistinctKeysFunctional(s: seq<Entry>)
    requires DistinctKeys(s)
    ensures KeyFunctional(multiset(s))
  {
    forall x, y | x in multiset(s) && y in multiset(s) && x.key == y.key ensures x == y {
      var i :| 0 <= i < |s| && s[i] == x;
      var j :| 0 <= j < |s| && s[j] == y;
    }
  }

  /** The first entry of a key-sorted sequence has the least key. */
  lemma HeadIsLeast(a: seq<Entry>, x: Entry)
    requires SortedByKey(a) && x in multiset(a)
    ensures LexLe(a[0].key, x.key)
  {
    var i :| 0 <= i < |a| && a[i] == x;
    if i == 0 {
      LexLeReflexive(x.key);
    }
  }

  /** Key-sorted arrangements of the same key-functional entries start alike. */
  lemma SortedHeadsEqual(a: seq<Entry>, b: seq<Entry>)
    requires SortedByKey(a) && SortedByKey(b) && a != []
    requires multiset(a) == multiset(b)
    requires KeyFunctional(multiset(a))
    ensures b != [] && a[0] == b[0]
  {
    assert a[0] in multiset(a);
    HeadIsLeast(a, b[0]);
    HeadIsLeast(b, a[0]);
    LexLeAntisymmetric(a[0].key, b[0].key);
  }

  /** Removing equal heads from two permutations leaves two permutations. */
  lemma TailsPermute(a: seq<Entry>, b: seq<Entry>)
    requires a != [] && b != [] && a[0] == b[0]
    requires multiset(a) == multiset(b)
    ensures multiset(a[1..]) == multiset(b[1..])
  {
    assert a == [a[0]] + a[1..];
    assert b == [b[0]] + b[1..];
    assert multiset(a[1..]) == multiset(a) - multiset{a[0]};
    assert multiset(b[1..]) == multiset(b) - multiset{a[0]};
  }

  /** The tail of a sequence without two entries sharing a key has none either. */
  lemma TailKeyFunctional(a: seq<Entry>)
    requires a != [] && KeyFunctional(multiset(a))
    ensures KeyFunctional(multiset(a[1..]))
  {
    assert a == [a[0]] + a[1..];
    assert multiset(a[1..]) <= multiset(a);
  }

  /**
   * Two key-sorted arrangements of the same entries, no two of which share a
   * key, are the same sequence.
   */
  lemma {:induction false} SortedUnique(a: seq<Entry>, b: seq<Entry>)
    requires SortedByKey(a) && SortedByKey(b)
    requires multiset(a) == multiset(b)
    requires KeyFunctional(multiset(a))
    ensures a == b
  {
    if a != [] {
      SortedHeadsEqual(a, b);
      TailsPermute(a, b);
      TailKeyFunctional(a);
      SortedUnique(a[1..], b[1..]);
      assert a == [a[0]] + a[1..] && b == [b[0]] + b[1..];
    }
  }

  /** The segments of every key that is not `undefined`, in the given order. */
  function Segments(encode: EntryEncoder, es: seq<Entry>): seq<string> {
    if es == [] then []
    else (if es[0].value == Undefined then [] else encode(es[0].key, es[0].value)) + Segments(encode, es[1..])
  }

  /** `parts.join('&')`. */
  function Join(parts: seq<string>): string {
    if parts == [] then ""
    else if |parts| == 1 then parts[0]
    else parts[0] + "&" + Join(parts[1..])
  }

  /** `qs.stringify(data, { format: 'RFC1738', sort })` with a sort by key. */
  function Stringify(encode: EntryEncoder, data: seq<Entry>): string {
    Join(Segments(encode, SortByKey(data)))
  }

  /**
   * The sort makes the query string canonical: it depends only on which
   * properties the object has, not on the order they were added in.
   */
  lemma StringifyCanonical(encode: EntryEncoder, d1: seq<Entry>, d2: seq<Entry>)
    requires DistinctKeys(d1)
    requires multiset(d1) == multiset(d2)
    ensures Stringify(encode, d1) == Stringify(encode, d2)
  {
    DistinctKeysFunctional(d1);
    SortedUnique(SortByKey(d1), SortByKey(d2));
  }
}
