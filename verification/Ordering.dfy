/** Options, results, and the (time, identifier) order in which the program lists
    events: Python tuples compare the time first and the identifier second. */
module Common {
  datatype Option<+T> = None | Some(value: T)

  datatype Result<+T, +E> = Ok(value: T) | Err(error: E)

  function Filter<T(!new)>(p: T -> bool, xs: seq<T>): (r: seq<T>)
    ensures forall x :: x in r <==> x in xs && p(x)
    ensures |r| <= |xs|
  {
    if xs == [] then []
    else
      var rest := Filter(p, xs[..|xs| - 1]);
      if p(xs[|xs| - 1]) then rest + [xs[|xs| - 1]] else rest
  }

  lemma {:induction false} FilterAppend<T(!new)>(p: T -> bool, xs: seq<T>, ys: seq<T>)
    ensures Filter(p, xs + ys) == Filter(p, xs) + Filter(p, ys)
  {
    if ys == [] {
      assert xs + ys == xs;
    } else {
      var init := ys[..|ys| - 1];
      assert xs + ys == (xs + init) + [ys[|ys| - 1]];
      assert (xs + ys)[..|xs + ys| - 1] == xs + init;
      FilterAppend(p, xs, init);
    }
  }

  /** Filtering twice is filtering by the conjunction. */
  lemma {:induction false} FilterTwice<T(!new)>(p: T -> bool, q: T -> bool, both: T -> bool, xs: seq<T>)
    requires forall x :: x in xs ==> (both(x) <==> p(x) && q(x))
    ensures Filter(q, Filter(p, xs)) == Filter(both, xs)
  {
    if xs != [] {
      FilterTwice(p, q, both, xs[..|xs| - 1]);
    }
  }

  lemma {:induction false} SameFilter<T(!new)>(p: T -> bool, q: T -> bool, xs: seq<T>)
    requires forall x :: x in xs ==> p(x) == q(x)
    ensures Filter(p, xs) == Filter(q, xs)
  {
    if xs != [] {
      SameFilter(p, q, xs[..|xs| - 1]);
    }
  }

  lemma FilterEmpty<T(!new)>(p: T -> bool, xs: seq<T>)
    ensures |Filter(p, xs)| == 0 <==> forall x :: x in xs ==> !p(x)
  {
    if |Filter(p, xs)| > 0 { assert Filter(p, xs)[0] in Filter(p, xs); }
  }

  lemma {:induction false} Smaller<T>(a: set<T>, b: set<T>)
    requires a <= b
    ensures |a| <= |b|
  {
    if a != {} {
      var x :| x in a;
      Smaller(a - {x}, b - {x});
    }
  }

  ghost predicate NoDuplicates<T>(xs: seq<T>) {
    forall i, j :: 0 <= i < j < |xs| ==> xs[i] != xs[j]
  }

  function Elements<T(!new)>(xs: seq<T>): set<T> { set x | x in xs }

  lemma {:induction false} LengthIsCardinality<T(!new)>(xs: seq<T>)
    requires NoDuplicates(xs)
    ensures |xs| == |Elements(xs)|
  {
    if xs != [] {
      var init, last := xs[..|xs| - 1], xs[|xs| - 1];
      LengthIsCardinality(init);
      assert Elements(xs) == Elements(init) + {last};
    }
  }
}

module Ordering {
  import opened Common

  datatype Stamp = Stamp(at: int, id: string)

  predicate TextLess(a: string, b: string) {
    if b == "" then false
    else if a == "" then true
    else if a[0] != b[0] then a[0] < b[0]
    else TextLess(a[1..], b[1..])
  }

  predicate StampLess(a: Stamp, b: Stamp) {
    a.at < b.at || (a.at == b.at && TextLess(a.id, b.id))
  }

  lemma {:induction false} TextOrder(a: string, b: string)
    ensures !(TextLess(a, b) && TextLess(b, a))
    ensures TextLess(a, b) || TextLess(b, a) || a == b
  {
    if a != "" {
      if b != "" && a[0] == b[0] {
        TextOrder(a[1..], b[1..]);
        assert a == [a[0]] + a[1..] && b == [b[0]] + b[1..];
      }
    }
  }

  lemma {:induction false} TextIrreflexive(a: string)
    ensures !TextLess(a, a)
  {
    if a != "" {
      TextIrreflexive(a[1..]);
    }
  }

  lemma {:induction false} TextTransitive(a: string, b: string, c: string)
    requires TextLess(a, b) && TextLess(b, c)
    ensures TextLess(a, c)
  {
    if a != "" && a[0] == b[0] && b[0] == c[0] {
      TextTransitive(a[1..], b[1..], c[1..]);
    }
  }

  lemma StampTransitive(a: Stamp, b: Stamp, c: Stamp)
    requires StampLess(a, b) && StampLess(b, c)
    ensures StampLess(a, c)
  {
    if a.at == b.at == c.at {
      TextTransitive(a.id, b.id, c.id);
    }
  }

  lemma StampIrreflexive(a: Stamp)
    ensures !StampLess(a, a)
  {
    TextIrreflexive(a.id);
  }

  lemma StampTotal(a: Stamp, b: Stamp)
    ensures StampLess(a, b) || StampLess(b, a) || a == b
    ensures !(StampLess(a, b) && StampLess(b, a))
    ensures !StampLess(a, a)
  {
    TextOrder(a.id, b.id);
    TextIrreflexive(a.id);
  }

  /** No element is listed before one with a smaller key. */
  ghost predicate Sorted<T>(key: T -> Stamp, xs: seq<T>) {
    forall i, j :: 0 <= i < j < |xs| ==> !StampLess(key(xs[j]), key(xs[i]))
  }

  ghost predicate StrictlySorted<T>(key: T -> Stamp, xs: seq<T>) {
    forall i, j :: 0 <= i < j < |xs| ==> StampLess(key(xs[i]), key(xs[j]))
  }

  /** The stable insertion that `sorted(..., key=...)` amounts to. */
  function Insert<T(!new)>(key: T -> Stamp, x: T, xs: seq<T>): (r: seq<T>)
    ensures |r| == |xs| + 1
    ensures forall y :: y in r <==> y == x || y in xs
  {
    if xs == [] then [x]
    else
      var init, last := xs[..|xs| - 1], xs[|xs| - 1];
      if StampLess(key(x), key(last)) then Insert(key, x, init) + [last] else xs + [x]
  }

  function Sort<T(!new)>(key: T -> Stamp, xs: seq<T>): (r: seq<T>)
    ensures |r| == |xs|
    ensures forall y :: y in r <==> y in xs
  {
    if xs == [] then []
    else
      Insert(key, xs[|xs| - 1], Sort(key, xs[..|xs| - 1]))
  }

  lemma {:induction false} InsertPermutes<T(!new)>(key: T -> Stamp, x: T, xs: seq<T>)
    ensures multiset(Insert(key, x, xs)) == multiset(xs) + multiset{x}
  {
    if xs != [] {
      var init, last := xs[..|xs| - 1], xs[|xs| - 1];
      assert xs == init + [last];
      if StampLess(key(x), key(last)) { InsertPermutes(key, x, init); }
    }
  }

  lemma {:induction false} SortPermutes<T(!new)>(key: T -> Stamp, xs: seq<T>)
    ensures multiset(Sort(key, xs)) == multiset(xs)
  {
    if xs != [] {
      assert xs == xs[..|xs| - 1] + [xs[|xs| - 1]];
      SortPermutes(key, xs[..|xs| - 1]);
      InsertPermutes(key, xs[|xs| - 1], Sort(key, xs[..|xs| - 1]));
    }
  }

  lemma {:induction false} InsertSorted<T(!new)>(key: T -> Stamp, x: T, xs: seq<T>)
    requires Sorted(key, xs)
    ensures Sorted(key, Insert(key, x, xs))
  {
    if xs != [] {
      var init, last := xs[..|xs| - 1], xs[|xs| - 1];
      if StampLess(key(x), key(last)) {
        InsertSorted(key, x, init);
        var r := Insert(key, x, init);
        forall i | 0 <= i < |r| ensures !StampLess(key(last), key(r[i])) {
          assert r[i] in r;
          if r[i] == x {
            StampTotal(key(x), key(last));
          } else {
            var k :| 0 <= k < |init| && init[k] == r[i];
            assert xs[k] == r[i];
          }
        }
      } else {
        forall i | 0 <= i < |xs| ensures !StampLess(key(x), key(xs[i])) {
          if StampLess(key(x), key(xs[i])) {
            StampTotal(key(xs[i]), key(last));
            if StampLess(key(xs[i]), key(last)) {
              StampTransitive(key(x), key(xs[i]), key(last));
            }
          }
        }
      }
    }
  }

  lemma {:induction false} SortSorted<T(!new)>(key: T -> Stamp, xs: seq<T>)
    ensures Sorted(key, Sort(key, xs))
  {
    if xs != [] {
      SortSorted(key, xs[..|xs| - 1]);
      InsertSorted(key, xs[|xs| - 1], Sort(key, xs[..|xs| - 1]));
    }
  }

  /** With distinct keys the sorted list is strictly sorted. */
  lemma SortStrict<T(!new)>(key: T -> Stamp, xs: seq<T>)
    requires forall i, j :: 0 <= i < j < |xs| ==> key(xs[i]) != key(xs[j])
    ensures StrictlySorted(key, Sort(key, xs))
  {
    SortSorted(key, xs);
    SortPermutes(key, xs);
    var r := Sort(key, xs);
    forall i, j | 0 <= i < j < |r| ensures StampLess(key(r[i]), key(r[j])) {
      StampTotal(key(r[i]), key(r[j]));
      if key(r[i]) == key(r[j]) {
        SameKeyTwice(key, r, xs, i, j);
      }
    }
  }

  /** An element held twice has a second place. */
  lemma SecondPlace<T(!new)>(xs: seq<T>, a: nat) returns (c: nat)
    requires a < |xs| && multiset(xs)[xs[a]] >= 2
    ensures c < |xs| && c != a && xs[c] == xs[a]
  {
    var before, after := xs[..a], xs[a + 1..];
    assert xs == before + [xs[a]] + after;
    if xs[a] in before {
      c :| 0 <= c < a && before[c] == xs[a];
    } else {
      var k :| 0 <= k < |after| && after[k] == xs[a];
      c := a + 1 + k;
    }
  }

  /** A permutation of a list with distinct keys has distinct keys. */
  lemma SameKeyTwice<T(!new)>(key: T -> Stamp, r: seq<T>, xs: seq<T>, i: nat, j: nat)
    requires multiset(r) == multiset(xs) && i < j < |r| && key(r[i]) == key(r[j])
    ensures exists a, b :: 0 <= a < b < |xs| && key(xs[a]) == key(xs[b])
  {
    var a := PlaceOf(r, xs, i);
    var b := PlaceOf(r, xs, j);
    if a == b {
      HeldTwice(r, i, j);
      b := SecondPlace(xs, a);
    }
    if a < b {
      assert key(xs[a]) == key(xs[b]);
    } else {
      assert key(xs[b]) == key(xs[a]);
    }
  }

  lemma PlaceOf<T(!new)>(r: seq<T>, xs: seq<T>, i: nat) returns (a: nat)
    requires multiset(r) == multiset(xs) && i < |r|
    ensures a < |xs| && xs[a] == r[i]
  {
    assert r[i] in multiset(xs);
    a :| 0 <= a < |xs| && xs[a] == r[i];
  }

  lemma HeldTwice<T(!new)>(r: seq<T>, i: nat, j: nat)
    requires i < j < |r| && r[i] == r[j]
    ensures multiset(r)[r[i]] >= 2
  {
    assert r == r[..i] + [r[i]] + r[i + 1..j] + [r[j]] + r[j + 1..];
  }

  /** A strictly sorted list is determined by the set of its elements. */
  lemma {:induction false} StrictlySortedUnique<T(!new)>(key: T -> Stamp, a: seq<T>, b: seq<T>)
    requires StrictlySorted(key, a) && StrictlySorted(key, b)
    requires forall x :: x in a <==> x in b
    ensures a == b
  {
    if a != [] { assert a[0] in b; }
    if b != [] { assert b[0] in a; }
    if a != [] {
      LastAgrees(key, a, b);
      var x := a[|a| - 1];
      var a', b' := a[..|a| - 1], b[..|b| - 1];
      InitWithout(key, a);
      InitWithout(key, b);
      forall y ensures y in a' <==> y in b' {
        assert y in a' <==> y in a && y != x;
        assert y in b' <==> y in b && y != x;
      }
      StrictlySortedUnique(key, a', b');
    }
  }

  lemma InitWithout<T(!new)>(key: T -> Stamp, a: seq<T>)
    requires StrictlySorted(key, a) && a != []
    ensures forall y :: y in a[..|a| - 1] <==> y in a && y != a[|a| - 1]
  {
    var x := a[|a| - 1];
    StampTotal(key(x), key(x));
    assert a == a[..|a| - 1] + [x];
  }

  lemma LastAgrees<T(!new)>(key: T -> Stamp, a: seq<T>, b: seq<T>)
    requires StrictlySorted(key, a) && StrictlySorted(key, b) && a != [] && b != []
    requires forall x :: x in a <==> x in b
    ensures a[|a| - 1] == b[|b| - 1]
  {
    var x, y := a[|a| - 1], b[|b| - 1];
    assert x in b && y in a;
    var i :| 0 <= i < |b| && b[i] == x;
    var j :| 0 <= j < |a| && a[j] == y;
    StampTotal(key(x), key(y));
  }
}
