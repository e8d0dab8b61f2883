/** Shared vocabulary of the arena model: optional values, 3-D vectors with
    exact real components, Python's int() truncation, and the two filters
    used to keep a dictionary's insertion order in step with its keys. */
module Base {

  datatype Option<T> = None | Some(value: T) {
    /** The carried value, or `default` when absent (Python's dict.get(k, default)). */
    function GetOr(default: T): T {
      match this
      case Some(v) => v
      case None => default
    }
  }

  /** A point or a velocity in the arena. */
  datatype Vec3 = Vec3(x: real, y: real, z: real)

  const Origin := Vec3(0.0, 0.0, 0.0)

  function Add(a: Vec3, b: Vec3): Vec3 {
    Vec3(a.x + b.x, a.y + b.y, a.z + b.z)
  }

  function Sub(a: Vec3, b: Vec3): Vec3 {
    Vec3(a.x - b.x, a.y - b.y, a.z - b.z)
  }

  function Scale(v: Vec3, k: real): Vec3 {
    Vec3(v.x * k, v.y * k, v.z * k)
  }

  /** The squared Euclidean norm; the model never takes a square root. */
  function Norm2(v: Vec3): (r: real)
    ensures r >= 0.0
  {
    v.x * v.x + v.y * v.y + v.z * v.z
  }

  function Dist2(a: Vec3, b: Vec3): (r: real)
    ensures r >= 0.0
  {
    Norm2(Sub(a, b))
  }

  /** norm(a - b) <= bound, decided on squares. */
  predicate WithinDistance(a: Vec3, b: Vec3, bound: real) {
    bound >= 0.0 && Dist2(a, b) <= bound * bound
  }

  /** norm(a - b) < bound, decided on squares. */
  predicate CloserThan(a: Vec3, b: Vec3, bound: real) {
    bound > 0.0 && Dist2(a, b) < bound * bound
  }

  lemma SquareLess(d: real, e: real)
    requires d >= 0.0 && e >= 0.0
    ensures d < e <==> d * d < e * e
    ensures d <= e <==> d * d <= e * e
  {
    var dd, de, ee := d * d, d * e, e * e;
    if d < e {
      assert dd <= de;
      assert de < ee;
    } else if e < d {
      assert ee <= de;
      assert de < dd;
    } else {
      assert dd == ee;
    }
  }

  /** Scaling a vector by k scales its squared norm by k * k. */
  lemma ScaleNorm(v: Vec3, k: real)
    ensures Norm2(Scale(v, k)) == k * k * Norm2(v)
  {
    assert (v.x * k) * (v.x * k) == k * k * (v.x * v.x);
    assert (v.y * k) * (v.y * k) == k * k * (v.y * v.y);
    assert (v.z * k) * (v.z * k) == k * k * (v.z * v.z);
  }

  /** Dividing a vector by its length l > 0 gives a unit vector. */
  lemma UnitLength(d: Vec3, l: real)
    requires l > 0.0 && l * l == Norm2(d)
    ensures Norm2(Scale(d, 1.0 / l)) == 1.0
  {
    ScaleNorm(d, 1.0 / l);
    var q := 1.0 / l;
    assert q * l == 1.0;
    assert q * q * (l * l) == (q * l) * (q * l);
  }

  /** For any true distance d (d >= 0, d*d the squared distance) the squared
      tests agree with comparing d itself. */
  lemma DistanceTestsMeaning(a: Vec3, b: Vec3, bound: real, d: real)
    requires d >= 0.0 && d * d == Dist2(a, b)
    ensures WithinDistance(a, b, bound) <==> d <= bound
    ensures CloserThan(a, b, bound) <==> d < bound
  {
    if bound >= 0.0 {
      SquareLess(d, bound);
    }
  }

  /** Python's int() on a float: truncation toward zero. */
  function Trunc(x: real): (r: int)
    ensures 0.0 <= x ==> r as real <= x < r as real + 1.0
    ensures x < 0.0 ==> r as real - 1.0 < x <= r as real
  {
    if x >= 0.0 then x.Floor else -((-x).Floor)
  }

  lemma TruncMonotone(x: real, y: real)
    requires x <= y
    ensures Trunc(x) <= Trunc(y)
  {
  }

  predicate Distinct<T(==)>(s: seq<T>) {
    forall i, j :: 0 <= i < j < |s| ==> s[i] != s[j]
  }

  /** The set of elements of `s`. */
  function Elements(s: seq<string>): (r: set<string>)
    ensures forall x :: x in r <==> x in s
  {
    if s == [] then {} else Elements(s[..|s| - 1]) + {s[|s| - 1]}
  }

  /** The elements of `s` that belong to `keep`, in order. */
  function Keep(s: seq<string>, keep: set<string>): (r: seq<string>)
    ensures forall x :: x in r <==> x in s && x in keep
    ensures |r| <= |s|
    ensures Distinct(s) ==> Distinct(r)
  {
    if s == [] then []
    else
      var init, last := s[..|s| - 1], s[|s| - 1];
      assert forall x :: x in s <==> x in init || x == last;
      Keep(init, keep) + (if last in keep then [last] else [])
  }

  /** The elements of `s` that do not belong to `gone`, in order: what is left
      of an ordered dictionary's key sequence after deleting the keys `gone`. */
  function Drop(s: seq<string>, gone: set<string>): (r: seq<string>)
    ensures forall x :: x in r <==> x in s && x !in gone
    ensures |r| <= |s|
    ensures Distinct(s) ==> Distinct(r)
  {
    if s == [] then []
    else
      var init, last := s[..|s| - 1], s[|s| - 1];
      assert forall x :: x in s <==> x in init || x == last;
      Drop(init, gone) + (if last in gone then [] else [last])
  }

  /** Keeping a subset of a sequence's elements keeps exactly that subset. */
  lemma ElementsOfKeep(s: seq<string>, keep: set<string>)
    requires forall x :: x in keep ==> x in s
    ensures Elements(Keep(s, keep)) == keep
  {
  }

  /** Deleting two batches of keys one after the other is deleting their union. */
  lemma {:induction false} DropTwice(s: seq<string>, a: set<string>, b: set<string>)
    ensures Drop(Drop(s, a), b) == Drop(s, a + b)
  {
    if s != [] {
      var init, last := s[..|s| - 1], s[|s| - 1];
      DropTwice(init, a, b);
      var d := Drop(init, a);
      assert Drop(s, a + b) == Drop(init, a + b) + (if last in a + b then [] else [last]);
      if last in a {
        assert Drop(s, a) == d + [];
        assert d + [] == d;
      } else {
        var e := d + [last];
        assert Drop(s, a) == e;
        assert e[..|e| - 1] == d && e[|e| - 1] == last;
        assert Drop(e, b) == Drop(d, b) + (if last in b then [] else [last]);
      }
    }
  }

  /** Dropping keys that do not occur changes nothing. */
  lemma {:induction false} DropAbsent(s: seq<string>, gone: set<string>)
    requires forall x :: x in gone ==> x !in s
    ensures Drop(s, gone) == s
  {
    if s != [] {
      var init := s[..|s| - 1];
      assert s == init + [s[|s| - 1]];
      DropAbsent(init, gone);
    }
  }
}
