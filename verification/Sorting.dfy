/** A stable sort by a pair of numbers, as `list.sort(key=...)` performs it. */
module Sorting {

  datatype Keyed<+T> = Keyed(major: int, minor: int, item: T)

  predicate Leq<T>(a: Keyed<T>, b: Keyed<T>) {
    a.major < b.major || (a.major == b.major && a.minor <= b.minor)
  }

  ghost predicate Sorted<T>(xs: seq<Keyed<T>>) {
    forall i, j | 0 <= i < j < |xs| :: Leq(xs[i], xs[j])
  }

  function Insert<T>(x: Keyed<T>, ys: seq<Keyed<T>>): seq<Keyed<T>> {
    if ys == [] then [x]
    else if Leq(x, ys[0]) then [x] + ys
    else [ys[0]] + Insert(x, ys[1..])
  }

  /** The stable sort: equal keys keep their order. */
  function Sort<T>(xs: seq<Keyed<T>>): seq<Keyed<T>> {
    if xs == [] then [] else Insert(xs[0], Sort(xs[1..]))
  }

  lemma {:induction false} InsertAdds<T>(x: Keyed<T>, ys: seq<Keyed<T>>)
    ensures multiset(Insert(x, ys)) == multiset{x} + multiset(ys)
  {
    if ys != [] && !Leq(x, ys[0]) {
      InsertAdds(x, ys[1..]);
      assert ys == [ys[0]] + ys[1..];
    }
  }

  /** Sorting only reorders. */
  lemma {:induction false} SortPermutes<T>(xs: seq<Keyed<T>>)
    ensures multiset(Sort(xs)) == multiset(xs)
  {
    if xs != [] {
      SortPermutes(xs[1..]);
      InsertAdds(xs[0], Sort(xs[1..]));
      assert xs == [xs[0]] + xs[1..];
    }
  }

  lemma {:induction false} InsertSorted<T>(x: Keyed<T>, ys: seq<Keyed<T>>)
    requires Sorted(ys)
    ensures Sorted(Insert(x, ys))
  {
    if ys != [] && !Leq(x, ys[0]) {
      InsertSorted(x, ys[1..]);
      InsertAdds(x, ys[1..]);
      var rest := Insert(x, ys[1..]);
      forall k | 0 <= k < |rest| ensures Leq(ys[0], rest[k]) {
        assert rest[k] in multiset(rest);
        if rest[k] != x {
          assert rest[k] in multiset(ys[1..]);
        }
      }
    }
  }

  lemma {:induction false} SortSorted<T>(xs: seq<Keyed<T>>)
    ensures Sorted(Sort(xs))
  {
    if xs != [] {
      SortSorted(xs[1..]);
      InsertSorted(xs[0], Sort(xs[1..]));
    }
  }

  lemma {:induction false} SortOfSorted<T>(xs: seq<Keyed<T>>)
    requires Sorted(xs)
    ensures Sort(xs) == xs
  {
    if xs != [] {
      SortOfSorted(xs[1..]);
      assert xs == [xs[0]] + xs[1..];
    }
  }

  lemma SameMembers<T>(xs: seq<Keyed<T>>)
    ensures |Sort(xs)| == |xs|
    ensures forall x :: x in Sort(xs) <==> x in xs
  {
    SortPermutes(xs);
    assert |multiset(Sort(xs))| == |multiset(xs)|;
    forall x ensures x in Sort(xs) <==> x in xs {
      assert x in multiset(Sort(xs)) <==> x in multiset(xs);
    }
  }

  function Keep<T>(xs: seq<Keyed<T>>, p: T -> bool): seq<Keyed<T>> {
    if xs == [] then []
    else if p(xs[0].item) then [xs[0]] + Keep(xs[1..], p)
    else Keep(xs[1..], p)
  }

  lemma {:induction false} KeepAppend<T>(xs: seq<Keyed<T>>, ys: seq<Keyed<T>>, p: T -> bool)
    ensures Keep(xs + ys, p) == Keep(xs, p) + Keep(ys, p)
  {
    if xs == [] {
      assert xs + ys == ys;
    } else {
      assert (xs + ys)[1..] == xs[1..] + ys;
      KeepAppend(xs[1..], ys, p);
    }
  }

  lemma {:induction false} KeepMember<T>(xs: seq<Keyed<T>>, p: T -> bool, x: Keyed<T>)
    ensures x in Keep(xs, p) <==> x in xs && p(x.item)
  {
    if xs != [] {
      KeepMember(xs[1..], p, x);
    }
  }

  lemma {:induction false} KeepAll<T>(xs: seq<Keyed<T>>, p: T -> bool)
    requires forall x | x in xs :: p(x.item)
    ensures Keep(xs, p) == xs
  {
    if xs != [] { KeepAll(xs[1..], p); }
  }

  lemma {:induction false} KeepNone<T>(xs: seq<Keyed<T>>, p: T -> bool)
    requires forall x | x in xs :: !p(x.item)
    ensures Keep(xs, p) == []
  {
    if xs != [] { KeepNone(xs[1..], p); }
  }

  /** An element no greater than all of `ys` goes in front. */
  lemma InsertInFront<T>(x: Keyed<T>, ys: seq<Keyed<T>>)
    requires forall y | y in ys :: Leq(x, y)
    ensures Insert(x, ys) == [x] + ys
  {
  }

  lemma {:induction false} KeepInsert<T>(x: Keyed<T>, ys: seq<Keyed<T>>, p: T -> bool)
    requires Sorted(ys)
    ensures Keep(Insert(x, ys), p) == if p(x.item) then Insert(x, Keep(ys, p)) else Keep(ys, p)
  {
    if ys == [] {
    } else if Leq(x, ys[0]) {
      assert ([x] + ys)[1..] == ys;
      if p(x.item) {
        forall y | y in Keep(ys, p) ensures Leq(x, y) { KeepMember(ys, p, y); }
        InsertInFront(x, Keep(ys, p));
      }
    } else {
      KeepInsert(x, ys[1..], p);
      assert Insert(x, ys)[1..] == Insert(x, ys[1..]);
      if p(ys[0].item) {
        assert Keep(ys, p)[1..] == Keep(ys[1..], p);
      }
    }
  }

  /** Sorting and selecting commute: a selection of a sorted list is the sorted selection. */
  lemma {:induction false} KeepSort<T>(xs: seq<Keyed<T>>, p: T -> bool)
    ensures Keep(Sort(xs), p) == Sort(Keep(xs, p))
  {
    if xs != [] {
      KeepSort(xs[1..], p);
      SortSorted(xs[1..]);
      KeepInsert(xs[0], Sort(xs[1..]), p);
      if p(xs[0].item) {
        assert Keep(xs, p)[1..] == Keep(xs[1..], p);
      }
    }
  }

  function Items<T>(xs: seq<Keyed<T>>): (r: seq<T>)
  {
    seq(|xs|, i requires 0 <= i < |xs| => xs[i].item)
  }
}
