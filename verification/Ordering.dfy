/** Lexicographic string order, and sorting by a total preorder. */
module Ordering {
  predicate LexLe(a: string, b: string) {
    if a == "" then true
    else if b == "" then false
    else if a[0] != b[0] then a[0] < b[0]
    else LexLe(a[1..], b[1..])
  }

  /** Dictionary order: at the first difference the smaller character decides, and where
      there is none the shorter string comes first. */
  lemma {:induction false} LexMeaning(a: string, b: string, k: nat)
    requires k <= |a| && k <= |b| && a[..k] == b[..k]
    requires k == |a| || k == |b| || a[k] != b[k]
    ensures LexLe(a, b) <==> k == |a| || (k < |b| && a[k] < b[k])
    decreases k
  {
    if k > 0 {
      assert a[..k][0] == b[..k][0];
      assert a[1..][..k - 1] == a[..k][1..] && b[1..][..k - 1] == b[..k][1..];
      LexMeaning(a[1..], b[1..], k - 1);
    }
  }

  lemma {:induction false} LexTotal(a: string, b: string)
    ensures LexLe(a, b) || LexLe(b, a)
    decreases |a|
  {
    if a != "" && b != "" && a[0] == b[0] {
      LexTotal(a[1..], b[1..]);
    }
  }

  lemma {:induction false} LexAntisymmetric(a: string, b: string)
    requires LexLe(a, b) && LexLe(b, a)
    ensures a == b
    decreases |a|
  {
    if a != "" && b != "" {
      LexAntisymmetric(a[1..], b[1..]);
      assert a == [a[0]] + a[1..] && b == [b[0]] + b[1..];
    }
  }

  lemma {:induction false} LexTransitive(a: string, b: string, c: string)
    requires LexLe(a, b) && LexLe(b, c)
    ensures LexLe(a, c)
    decreases |a|
  {
    if a != "" && b != "" && c != "" && a[0] == b[0] == c[0] {
      LexTransitive(a[1..], b[1..], c[1..]);
    }
  }

  ghost predicate TotalPreorder<T(!new)>(le: (T, T) -> bool) {
    && (forall x, y :: le(x, y) || le(y, x))
    && (forall x, y, z :: le(x, y) && le(y, z) ==> le(x, z))
  }

  /** Nothing stands behind something it comes strictly before. */
  ghost predicate Ascending<T>(le: (T, T) -> bool, xs: seq<T>) {
    forall later, earlier | 0 <= earlier < later < |xs| :: le(xs[earlier], xs[later])
  }

  function Insert<T>(le: (T, T) -> bool, x: T, xs: seq<T>): seq<T> {
    if xs == [] then [x]
    else if le(x, xs[0]) then [x] + xs
    else [xs[0]] + Insert(le, x, xs[1..])
  }

  /** A stable sort: equal keys keep their order. */
  function Sort<T>(le: (T, T) -> bool, xs: seq<T>): seq<T> {
    if xs == [] then [] else Insert(le, xs[0], Sort(le, xs[1..]))
  }

  lemma {:induction false} InsertKeeps<T>(le: (T, T) -> bool, x: T, xs: seq<T>)
    ensures multiset(Insert(le, x, xs)) == multiset(xs) + multiset{x}
    decreases |xs|
  {
    if xs != [] {
      assert xs == [xs[0]] + xs[1..];
      if !le(x, xs[0]) {
        InsertKeeps(le, x, xs[1..]);
      }
    }
  }

  lemma Chain<T(!new)>(le: (T, T) -> bool, x: T, y: T, z: T)
    requires TotalPreorder(le)
    ensures le(x, y) || le(y, x)
    ensures le(x, y) && le(y, z) ==> le(x, z)
  {
  }

  lemma {:induction false} InsertAscends<T(!new)>(le: (T, T) -> bool, x: T, xs: seq<T>)
    requires TotalPreorder(le) && Ascending(le, xs)
    ensures Ascending(le, Insert(le, x, xs))
    decreases |xs|
  {
    hide TotalPreorder;
    if xs != [] {
      Chain(le, x, xs[0], x);
      if le(x, xs[0]) {
        forall j | 0 <= j < |xs| ensures le(x, xs[j]) {
          Chain(le, x, xs[0], xs[j]);
        }
      } else {
        var rest := Insert(le, x, xs[1..]);
        InsertAscends(le, x, xs[1..]);
        InsertKeeps(le, x, xs[1..]);
        forall j | 0 <= j < |rest| ensures le(xs[0], rest[j]) {
          assert rest[j] in multiset(rest);
          assert rest[j] == x || rest[j] in xs[1..];
        }
      }
    }
  }

  lemma {:induction false} SortAscends<T(!new)>(le: (T, T) -> bool, xs: seq<T>)
    requires TotalPreorder(le)
    ensures Ascending(le, Sort(le, xs)) && multiset(Sort(le, xs)) == multiset(xs)
    decreases |xs|
  {
    if xs != [] {
      SortAscends(le, xs[1..]);
      InsertAscends(le, xs[0], Sort(le, xs[1..]));
      InsertKeeps(le, xs[0], Sort(le, xs[1..]));
      assert xs == [xs[0]] + xs[1..];
    }
  }

  // ----- Where the order tells the elements apart, it fixes the arrangement -----

  ghost predicate Separates<T(!new)>(le: (T, T) -> bool, xs: seq<T>) {
    forall x, y | x in xs && y in xs && le(x, y) && le(y, x) :: x == y
  }

  /** `xs` without the first occurrence of `x`. */
  function Without<T(==)>(xs: seq<T>, x: T): seq<T>
    requires x in xs
  {
    if xs[0] == x then xs[1..] else [xs[0]] + Without(xs[1..], x)
  }

  lemma {:induction false} WithoutCounts<T>(xs: seq<T>, x: T)
    requires x in xs
    ensures multiset(Without(xs, x)) == multiset(xs) - multiset{x}
    decreases |xs|
  {
    assert multiset(xs) == multiset{xs[0]} + multiset(xs[1..]) by {
      assert xs == [xs[0]] + xs[1..];
    }
    if xs[0] != x {
      WithoutCounts(xs[1..], x);
    }
  }

  lemma {:induction false} WithoutAscends<T>(le: (T, T) -> bool, xs: seq<T>, x: T)
    requires x in xs && Ascending(le, xs)
    ensures Ascending(le, Without(xs, x)) && forall y | y in Without(xs, x) :: y in xs
    decreases |xs|
  {
    if xs[0] != x {
      var rest := Without(xs[1..], x);
      WithoutAscends(le, xs[1..], x);
      forall n | 0 <= n < |rest| ensures le(xs[0], rest[n]) {
        assert rest[n] in rest && rest[n] in xs[1..];
      }
    }
  }

  /** Inserting an element again puts it back where it was. */
  lemma {:induction false} InsertPutsBack<T(!new)>(le: (T, T) -> bool, xs: seq<T>, x: T)
    requires x in xs && Ascending(le, xs) && Separates(le, xs)
    ensures Insert(le, x, Without(xs, x)) == xs
    decreases |xs|
  {
    if xs[0] != x {
      var n :| 0 <= n < |xs| && xs[n] == x;
      assert le(xs[0], x) && !le(x, xs[0]);
      InsertPutsBack(le, xs[1..], x);
    }
  }

  /** An ascending list is what sorting makes of any of its rearrangements. */
  lemma {:induction false} AscendingIsSorted<T(!new)>(le: (T, T) -> bool, xs: seq<T>, mixed: seq<T>)
    requires Ascending(le, xs) && Separates(le, xs) && multiset(xs) == multiset(mixed)
    ensures xs == Sort(le, mixed)
    decreases |mixed|
  {
    if mixed == [] {
      assert |multiset(xs)| == 0;
    } else {
      var x, rest := mixed[0], mixed[1..];
      assert mixed == [x] + rest;
      assert x in multiset(mixed);
      var others := Without(xs, x);
      WithoutCounts(xs, x);
      WithoutAscends(le, xs, x);
      AscendingIsSorted(le, others, rest);
      InsertPutsBack(le, xs, x);
    }
  }

  /** So two ascending arrangements of the same elements are one. */
  lemma OneArrangement<T(!new)>(le: (T, T) -> bool, first: seq<T>, second: seq<T>)
    requires Ascending(le, first) && Ascending(le, second)
    requires multiset(first) == multiset(second) && Separates(le, first)
    ensures first == second
  {
    forall y | y in second ensures y in first {
      assert y in multiset(second);
    }
    AscendingIsSorted(le, first, second);
    AscendingIsSorted(le, second, second);
  }
}
