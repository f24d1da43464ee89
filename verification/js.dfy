/**
 * The few JavaScript runtime notions the relay and the record store rely on:
 * decoded JSON values with their truthiness and the `||` default operator,
 * `undefined`-or-value results, the insertion order of a `Map`, and
 * `Array.prototype.find`.
 */
module Js {

  datatype Option<T> = None | Some(value: T)

  /**
   * A value produced by `JSON.parse`, plus `undefined` for a key the object
   * does not have. Objects and arrays are never looked into by the code
   * modelled here, only copied and compared with `===`, which for them is
   * reference identity: `Composite(ref)` stands for the object with
   * reference `ref`. JSON numbers are modelled as integers (`JSON.parse`
   * never yields NaN).
   */
  datatype Json =
    | Undefined
    | Null
    | Bool(b: bool)
    | Num(n: int)
    | Str(s: string)
    | Composite(ref: nat)

  /** JavaScript truthiness: `undefined`, `null`, `false`, `0` and `""` are falsy. */
  predicate Truthy(v: Json) {
    match v
    case Undefined => false
    case Null => false
    case Bool(b) => b
    case Num(n) => n != 0
    case Str(s) => s != ""
    case Composite(_) => true
  }

  /** The expression `a || b`: `a` when it is truthy, otherwise `b`. */
  function Or(a: Json, b: Json): Json {
    if Truthy(a) then a else b
  }

  lemma OrDefaults(a: Json, b: Json)
    ensures Truthy(a) ==> Or(a, b) == a
    ensures !Truthy(a) ==> Or(a, b) == b
    ensures Truthy(b) ==> Truthy(Or(a, b))
  {
  }

  predicate Distinct<K(==)>(s: seq<K>) {
    forall i, j :: 0 <= i < j < |s| ==> s[i] != s[j]
  }

  /**
   * The key order of a JavaScript `Map` after `delete(k)`: `k` leaves the
   * order, every other key keeps its place.
   */
  function Without<K(==,!new)>(s: seq<K>, k: K): (r: seq<K>)
    ensures forall x :: x in r <==> x in s && x != k
    ensures Distinct(s) ==> Distinct(r)
    ensures k !in s ==> r == s
  {
    if s == [] then []
    else if s[0] == k then Without(s[1..], k)
    else
      var rest := Without(s[1..], k);
      assert Distinct(s) ==> Distinct([s[0]] + rest) by {
        if Distinct(s) {
          assert s[0] !in s[1..];
          forall j | 0 < j < |rest| + 1 ensures ([s[0]] + rest)[j] != s[0] {
            assert ([s[0]] + rest)[j] == rest[j - 1];
          }
        }
      }
      [s[0]] + rest
  }

  /** `delete` keeps the remaining keys in their order: deleting from a concatenation deletes from each part. */
  lemma {:induction false} WithoutKeepsOrder<K(!new)>(a: seq<K>, b: seq<K>, k: K)
    ensures Without(a + b, k) == Without(a, k) + Without(b, k)
  {
    if a != [] {
      var ab := a + b;
      assert ab[0] == a[0] && ab[1..] == a[1..] + b;
      WithoutKeepsOrder(a[1..], b, k);
      if a[0] == k {
        assert Without(ab, k) == Without(a[1..] + b, k);
      } else {
        assert Without(ab, k) == [a[0]] + Without(a[1..] + b, k);
        assert Without(a, k) == [a[0]] + Without(a[1..], k);
      }
    } else {
      assert a + b == b;
    }
  }

  /**
   * `Array.prototype.find`: the first element of `s` that satisfies `p`,
   * or `undefined` when none does.
   */
  function Find<T(==)>(s: seq<T>, p: T -> bool): (r: Option<T>)
    ensures r.Some? ==> r.value in s && p(r.value)
    ensures r.None? <==> forall i :: 0 <= i < |s| ==> !p(s[i])
    ensures r.Some? ==>
      exists i :: 0 <= i < |s| && s[i] == r.value && forall j :: 0 <= j < i ==> !p(s[j])
  {
    if s == [] then None
    else if p(s[0]) then Some(s[0])
    else
      var r := Find(s[1..], p);
      assert r.Some? ==> exists i :: 0 < i < |s| && s[i] == r.value && forall j :: 0 <= j < i ==> !p(s[j]) by {
        if r.Some? {
          var i :| 0 <= i < |s| - 1 && s[1..][i] == r.value && forall j :: 0 <= j < i ==> !p(s[1..][j]);
          assert s[i + 1] == r.value;
          forall j | 0 <= j < i + 1 ensures !p(s[j]) {
            if j > 0 { assert s[j] == s[1..][j - 1]; }
          }
        }
      }
      r
  }
}
