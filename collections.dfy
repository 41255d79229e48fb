/** Order-preserving list operations shared by the store actions and the pages:
    `Array.prototype.filter`, `map` over the elements whose id matches, `find`,
    and `slice(0, n)`. Every collection of the application is a `seq` of records
    with an `id` string; the operations take that projection as `key`. */
module Collections {

  datatype Option<+T> = None | Some(value: T) {
    predicate IsFailure() {
      None?
    }

    function PropagateFailure<U>(): Option<U>
      requires None?
    {
      None
    }

    function Extract(): T
      requires Some?
    {
      value
    }

    function GetOr(default: T): T {
      match this
      case Some(v) => v
      case None => default
    }
  }

  /** `a` occurs in `b` in the same order, possibly with gaps. */
  predicate IsSubsequence<T(==)>(a: seq<T>, b: seq<T>)
    decreases |b|
  {
    a == [] || (b != [] && ((a[0] == b[0] && IsSubsequence(a[1..], b[1..])) || IsSubsequence(a, b[1..])))
  }

  /** `xs.filter(p)`: the result holds exactly the elements that satisfy `p`;
      `KeepCounts` and `KeepOrder` add that it keeps their multiplicities and
      their original order. */
  function Keep<T(==,!new)>(xs: seq<T>, p: T -> bool): (r: seq<T>)
    ensures |r| <= |xs|
    ensures forall x :: x in r <==> x in xs && p(x)
  {
    if xs == [] then []
    else
      var rest := Keep(xs[1..], p);
      assert forall x :: x in xs <==> x == xs[0] || x in xs[1..];
      if p(xs[0]) then [xs[0]] + rest else rest
  }

  /** Each element satisfying `p` occurs in `Keep(xs, p)` as often as in `xs`;
      the others do not occur. */
  lemma {:induction false} KeepCounts<T(!new)>(xs: seq<T>, p: T -> bool)
    ensures forall x :: multiset(Keep(xs, p))[x] == if p(x) then multiset(xs)[x] else 0
  {
    if xs != [] {
      KeepCounts(xs[1..], p);
      var rest := Keep(xs[1..], p);
      assert xs == [xs[0]] + xs[1..];
      assert multiset(xs) == multiset{xs[0]} + multiset(xs[1..]);
      if p(xs[0]) {
        assert multiset([xs[0]] + rest) == multiset{xs[0]} + multiset(rest);
      }
    }
  }

  /** `Keep(xs, p)` lists its elements in their order in `xs`. */
  lemma {:induction false} KeepOrder<T(!new)>(xs: seq<T>, p: T -> bool)
    ensures IsSubsequence(Keep(xs, p), xs)
  {
    if xs != [] {
      KeepOrder(xs[1..], p);
      if p(xs[0]) {
        assert ([xs[0]] + Keep(xs[1..], p))[1..] == Keep(xs[1..], p);
      }
    }
  }

  /** Filtering with a predicate every element satisfies gives the list back. */
  lemma {:induction false} KeepAll<T(!new)>(xs: seq<T>, p: T -> bool)
    requires forall x :: x in xs ==> p(x)
    ensures Keep(xs, p) == xs
  {
    if xs != [] {
      assert forall x :: x in xs[1..] ==> x in xs;
      KeepAll(xs[1..], p);
      assert xs == [xs[0]] + xs[1..];
    }
  }

  /** Filters that agree on the elements of `xs` select the same elements. */
  lemma {:induction false} KeepCongruent<T(!new)>(xs: seq<T>, p: T -> bool, q: T -> bool)
    requires forall x :: x in xs ==> p(x) == q(x)
    ensures Keep(xs, p) == Keep(xs, q)
  {
    if xs != [] {
      assert forall x :: x in xs[1..] ==> x in xs;
      KeepCongruent(xs[1..], p, q);
    }
  }

  /** The filter keeps every element exactly when every element satisfies it. */
  lemma {:induction false} KeepFull<T(!new)>(xs: seq<T>, p: T -> bool)
    ensures |Keep(xs, p)| == |xs| <==> forall x :: x in xs ==> p(x)
  {
    if xs != [] {
      assert forall x :: x in xs[1..] ==> x in xs;
      KeepFull(xs[1..], p);
      assert xs[0] in xs;
      if p(xs[0]) {
        assert forall x :: x in xs ==> x == xs[0] || x in xs[1..];
      }
    }
  }

  /** Filtering with a predicate no element satisfies gives the empty list. */
  lemma KeepNone<T(!new)>(xs: seq<T>, p: T -> bool)
    requires forall x :: x in xs ==> !p(x)
    ensures Keep(xs, p) == []
  {
    if Keep(xs, p) != [] {
      assert Keep(xs, p)[0] in Keep(xs, p);
    }
  }

  /** `filter` distributes over concatenation. */
  lemma {:induction false} KeepConcat<T(!new)>(a: seq<T>, b: seq<T>, p: T -> bool)
    ensures Keep(a + b, p) == Keep(a, p) + Keep(b, p)
  {
    if a == [] {
      assert a + b == b;
    } else {
      assert (a + b)[1..] == a[1..] + b;
      KeepConcat(a[1..], b, p);
    }
  }

  /** Two predicates that never hold together select at most `|xs|` elements between them. */
  lemma {:induction false} KeepDisjointCount<T(!new)>(xs: seq<T>, p: T -> bool, q: T -> bool)
    requires forall x :: x in xs ==> !(p(x) && q(x))
    ensures |Keep(xs, p)| + |Keep(xs, q)| <= |xs|
  {
    if xs != [] {
      assert forall x :: x in xs[1..] ==> x in xs;
      KeepDisjointCount(xs[1..], p, q);
    }
  }

  /** `xs.map(x => key(x) === id ? f(x) : x)`: same length and order; the
      elements whose key is `id` are replaced by `f` of themselves, every other
      element is left as it was. */
  function UpdateWhere<T>(xs: seq<T>, key: T -> string, id: string, f: T -> T): (r: seq<T>)
    ensures |r| == |xs|
    ensures forall i :: 0 <= i < |xs| && key(xs[i]) == id ==> r[i] == f(xs[i])
    ensures forall i :: 0 <= i < |xs| && key(xs[i]) != id ==> r[i] == xs[i]
  {
    if xs == [] then []
    else
      var rest := UpdateWhere(xs[1..], key, id, f);
      var r := [if key(xs[0]) == id then f(xs[0]) else xs[0]] + rest;
      assert forall i :: 1 <= i < |xs| ==> r[i] == rest[i - 1] && xs[i] == xs[1..][i - 1];
      r
  }

  /** An id that no element carries, or a replacement that changes nothing,
      leaves the list identical. */
  lemma UpdateWhereUnchanged<T>(xs: seq<T>, key: T -> string, id: string, f: T -> T)
    requires forall i :: 0 <= i < |xs| && key(xs[i]) == id ==> f(xs[i]) == xs[i]
    ensures UpdateWhere(xs, key, id, f) == xs
  {
  }

  /** True when some element's key is `id`. */
  predicate HasKey<T>(xs: seq<T>, key: T -> string, id: string)
  {
    exists i :: 0 <= i < |xs| && key(xs[i]) == id
  }

  /** No two elements share a key, as in a list whose ids were all freshly generated. */
  predicate KeysUnique<T>(xs: seq<T>, key: T -> string)
  {
    forall i, j :: 0 <= i < j < |xs| ==> key(xs[i]) != key(xs[j])
  }

  /** The predicate `x => key(x) !== id`. */
  function KeyIsNot<T>(key: T -> string, id: string): T -> bool
  {
    x => key(x) != id
  }

  /** `xs.filter(x => key(x) !== id)`: every element with that key is gone,
      every other element stays, in order; an id no element carries changes nothing. */
  function RemoveKey<T(==,!new)>(xs: seq<T>, key: T -> string, id: string): (r: seq<T>)
    ensures forall x :: x in r ==> key(x) != id
    ensures forall x :: x in xs && key(x) != id ==> x in r
    ensures forall x :: key(x) != id ==> multiset(r)[x] == multiset(xs)[x]
    ensures IsSubsequence(r, xs)
    ensures !HasKey(xs, key, id) ==> r == xs
  {
    var p := KeyIsNot(key, id);
    KeepCounts(xs, p);
    KeepOrder(xs, p);
    if !HasKey(xs, key, id) then
      KeepAll(xs, p);
      Keep(xs, p)
    else Keep(xs, p)
  }

  /** Appending an element under a fresh key and then removing that key gives
      the list back. */
  lemma AppendThenRemove<T(!new)>(xs: seq<T>, x: T, key: T -> string)
    requires !HasKey(xs, key, key(x))
    ensures RemoveKey(xs + [x], key, key(x)) == xs
  {
    var p := KeyIsNot(key, key(x));
    KeepConcat(xs, [x], p);
    assert !p(x);
    assert Keep([x], p) == [];
    KeepAll(xs, p);
  }

  /** `xs.find(x => key(x) === id)`: the first element with that key, or nothing. */
  function FindFirst<T>(xs: seq<T>, key: T -> string, id: string): (r: Option<T>)
    ensures r.None? <==> !HasKey(xs, key, id)
    ensures r.Some? ==> exists i :: 0 <= i < |xs| && xs[i] == r.value && key(xs[i]) == id &&
                                   forall j :: 0 <= j < i ==> key(xs[j]) != id
  {
    if xs == [] then None
    else if key(xs[0]) == id then Some(xs[0])
    else
      var r := FindFirst(xs[1..], key, id);
      assert forall j :: 1 <= j < |xs| ==> xs[j] == xs[1..][j - 1];
      assert HasKey(xs, key, id) ==> HasKey(xs[1..], key, id) by {
        if HasKey(xs, key, id) {
          var i :| 0 <= i < |xs| && key(xs[i]) == id;
          assert key(xs[1..][i - 1]) == id;
        }
      }
      r
  }

  /** With unique keys the first element carrying a key is the only one. */
  lemma FindFirstUnique<T>(xs: seq<T>, key: T -> string, i: nat)
    requires KeysUnique(xs, key) && i < |xs|
    ensures FindFirst(xs, key, key(xs[i])) == Some(xs[i])
  {
    var r := FindFirst(xs, key, key(xs[i]));
    assert HasKey(xs, key, key(xs[i]));
    var k :| 0 <= k < |xs| && xs[k] == r.value && key(xs[k]) == key(xs[i]) &&
             forall j :: 0 <= j < k ==> key(xs[j]) != key(xs[i]);
    assert k == i;
  }

  /** `xs.slice(0, n)`: JavaScript clamps the end to the length. */
  function Take<T>(xs: seq<T>, n: nat): (r: seq<T>)
    ensures |r| == if n < |xs| then n else |xs|
    ensures r <= xs
  {
    if n < |xs| then xs[..n] else xs
  }
}
