/** The few JavaScript runtime behaviours the board and the server rely on:
    `null`/`undefined` as an absent value, `Array.prototype.findIndex`,
    `Array.prototype.filter` with an inequality test, property lookup on a
    plain object used as a dictionary, and the truthiness of a string. */
module JsRuntime {

  /** An optional value; `None` stands for `null` or `undefined`. */
  datatype Option<+T> = None | Some(value: T)

  /** `s.findIndex(p)`: the index of the first element satisfying `p`, or -1. */
  function FindIndex<T>(s: seq<T>, p: T -> bool): (r: int)
    ensures -1 <= r < |s|
    ensures r == -1 <==> forall i :: 0 <= i < |s| ==> !p(s[i])
    ensures 0 <= r ==> p(s[r]) && forall j :: 0 <= j < r ==> !p(s[j])
  {
    if |s| == 0 then -1
    else if p(s[0]) then 0
    else
      var k := FindIndex(s[1..], p);
      if k < 0 then -1 else k + 1
  }

  /** `s.filter(y => y !== x)`: every occurrence of `x` is dropped, every
      other element keeps its multiplicity. */
  function Without<T(==)>(s: seq<T>, x: T): (r: seq<T>)
    ensures x !in r
    ensures multiset(r) == multiset(s)[x := 0]
    ensures x !in s ==> r == s
  {
    if |s| == 0 then []
    else
      assert s == [s[0]] + s[1..];
      if s[0] == x then Without(s[1..], x)
      else [s[0]] + Without(s[1..], x)
  }

  /** Filtering keeps order: filtering a concatenation filters each part. */
  lemma {:induction false} WithoutConcat<T>(a: seq<T>, b: seq<T>, x: T)
    ensures Without(a + b, x) == Without(a, x) + Without(b, x)
  {
    if |a| == 0 {
      assert a + b == b;
    } else {
      assert (a + b)[0] == a[0] && (a + b)[1..] == a[1..] + b;
      WithoutConcat(a[1..], b, x);
    }
  }

  /** `m[k]` on a dictionary object: the stored value, or `undefined`.
      Keys are taken never to name an inherited `Object.prototype` property. */
  function Lookup<K, V>(m: map<K, V>, k: K): (r: Option<V>)
    ensures r.Some? <==> k in m
    ensures r.Some? ==> r.value == m[k]
  {
    if k in m then Some(m[k]) else None
  }

  /** A string in a boolean position: only the empty string is falsy. */
  predicate Truthy(s: string)
  {
    s != ""
  }

  /** An optional string in a boolean position (`null`, `undefined` and `""`
      are falsy). */
  predicate Present(o: Option<string>)
  {
    o.Some? && Truthy(o.value)
  }
}
