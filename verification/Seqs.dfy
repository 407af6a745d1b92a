/** Lookup, filtering and mapping over sequences: what the source does with
    `iter().find`, `retain`, `filter` and `map`. */
module Seqs {
  import opened Wrappers

  /** First element that satisfies `p`. */
  function Find<T(!new)>(p: T -> bool, s: seq<T>): Option<T> {
    if s == [] then None else if p(s[0]) then Some(s[0]) else Find(p, s[1..])
  }

  lemma {:induction false} FindIsFirst<T(!new)>(p: T -> bool, s: seq<T>)
    ensures Find(p, s).Some? ==>
              exists i :: 0 <= i < |s| && s[i] == Find(p, s).value && p(s[i]) && forall j :: 0 <= j < i ==> !p(s[j])
    ensures Find(p, s).None? ==> forall x :: x in s ==> !p(x)
  {
    FindIsAtPosition(p, s);
    var i := Position(p, s);
    if i == |s| {
      forall x | x in s ensures !p(x) {
        var j :| 0 <= j < |s| && s[j] == x;
      }
    }
  }

  /** Position of the first element that satisfies `p`, or `|s|`. */
  function Position<T(!new)>(p: T -> bool, s: seq<T>): (i: nat)
    ensures i <= |s|
    ensures i < |s| ==> p(s[i])
    ensures forall j :: 0 <= j < i ==> !p(s[j])
  {
    if s == [] || p(s[0]) then 0 else 1 + Position(p, s[1..])
  }

  lemma {:induction false} FindIsAtPosition<T(!new)>(p: T -> bool, s: seq<T>)
    ensures Find(p, s) == if Position(p, s) < |s| then Some(s[Position(p, s)]) else None
  {
    if s != [] && !p(s[0]) {
      FindIsAtPosition(p, s[1..]);
    }
  }

  /** Changing an element other than the one found, to one that does not satisfy `p`. */
  lemma {:induction false} FindUpdate<T(!new)>(p: T -> bool, s: seq<T>, i: nat, v: T)
    requires i < |s| && !p(v) && i != Position(p, s)
    ensures Find(p, s[i := v]) == Find(p, s)
  {
    if i == 0 {
      assert s[0 := v][1..] == s[1..];
    } else {
      assert s[i := v][1..] == s[1..][i - 1 := v];
      if !p(s[0]) {
        FindUpdate(p, s[1..], i - 1, v);
      }
    }
  }

  /** The elements that satisfy `p`, in order. */
  function Filter<T(!new)>(p: T -> bool, s: seq<T>): (r: seq<T>)
    ensures |r| <= |s|
    ensures forall x :: x in r <==> x in s && p(x)
  {
    if s == [] then [] else
      var rest := Filter(p, s[1..]);
      assert forall x :: x in s <==> x == s[0] || x in s[1..];
      if p(s[0]) then [s[0]] + rest else rest
  }

  lemma {:induction false} FilterAppend<T(!new)>(p: T -> bool, a: seq<T>, b: seq<T>)
    ensures Filter(p, a + b) == Filter(p, a) + Filter(p, b)
  {
    if a == [] {
      assert a + b == b;
      assert Filter(p, a) == [];
    } else {
      assert (a + b)[0] == a[0] && (a + b)[1..] == a[1..] + b;
      FilterAppend(p, a[1..], b);
      var rest, head := Filter(p, a[1..]), if p(a[0]) then [a[0]] else [];
      assert head + (rest + Filter(p, b)) == (head + rest) + Filter(p, b);
    }
  }

  lemma FilterSnoc<T(!new)>(p: T -> bool, s: seq<T>, i: nat)
    requires i < |s|
    ensures Filter(p, s[..i + 1]) == if p(s[i]) then Filter(p, s[..i]) + [s[i]] else Filter(p, s[..i])
  {
    assert s[..i + 1] == s[..i] + [s[i]];
    FilterAppend(p, s[..i], [s[i]]);
  }

  /** Filtering that spares the element found. */
  lemma {:induction false} FindFilter<T(!new)>(p: T -> bool, q: T -> bool, s: seq<T>)
    requires Find(p, s).Some? ==> q(Find(p, s).value)
    ensures Find(p, Filter(q, s)) == Find(p, s)
  {
    if s != [] {
      if p(s[0]) {
        assert q(s[0]);
      } else {
        FindFilter(p, q, s[1..]);
        if q(s[0]) {
          assert Filter(q, s)[1..] == Filter(q, s[1..]);
        }
      }
    }
  }

  /** Dropping an element other than the one found. */
  lemma {:induction false} FindWithout<T(!new)>(p: T -> bool, s: seq<T>, i: nat)
    requires i < |s| && i != Position(p, s)
    ensures Find(p, s[..i] + s[i + 1..]) == Find(p, s)
  {
    var t := s[..i] + s[i + 1..];
    if i == 0 {
      assert t == s[1..];
    } else {
      assert t[0] == s[0] && t[1..] == s[1..][..i - 1] + s[1..][i..];
      if !p(s[0]) {
        FindWithout(p, s[1..], i - 1);
      }
    }
  }

  lemma {:induction false} FilterAll<T(!new)>(p: T -> bool, s: seq<T>)
    requires forall x :: x in s ==> p(x)
    ensures Filter(p, s) == s
  {
    if s != [] {
      FilterAll(p, s[1..]);
    }
  }

  lemma {:induction false} FilterNone<T(!new)>(p: T -> bool, s: seq<T>)
    requires forall x :: x in s ==> !p(x)
    ensures Filter(p, s) == []
  {
    if s != [] {
      FilterNone(p, s[1..]);
    }
  }

  lemma {:induction false} FilterSame<T(!new)>(p: T -> bool, q: T -> bool, s: seq<T>)
    requires forall x :: x in s ==> p(x) == q(x)
    ensures Filter(p, s) == Filter(q, s)
  {
    if s != [] {
      FilterSame(p, q, s[1..]);
    }
  }

  lemma FilterOut<T(!new)>(p: T -> bool, a: seq<T>, x: T, b: seq<T>)
    requires !p(x) && forall y :: y in a || y in b ==> p(y)
    ensures Filter(p, a + ([x] + b)) == a + b
  {
    FilterAppend(p, a, [x] + b);
    FilterAll(p, a);
    FilterAll(p, b);
    assert ([x] + b)[1..] == b;
  }

  /** Every earlier element stands in relation `rel` to every later one. */
  ghost predicate Pairwise<T(!new)>(rel: (T, T) -> bool, s: seq<T>) {
    forall i, j :: 0 <= i < j < |s| ==> rel(s[i], s[j])
  }

  lemma {:induction false} FilterPairwise<T(!new)>(p: T -> bool, rel: (T, T) -> bool, s: seq<T>)
    requires Pairwise(rel, s)
    ensures Pairwise(rel, Filter(p, s))
  {
    if s != [] {
      var t := s[1..];
      assert Pairwise(rel, t) by {
        forall i, j | 0 <= i < j < |t| ensures rel(t[i], t[j]) {
          assert t[i] == s[i + 1] && t[j] == s[j + 1];
        }
      }
      FilterPairwise(p, rel, t);
      var f := Filter(p, t);
      forall x | x in f ensures rel(s[0], x) {
        var j :| 0 <= j < |t| && t[j] == x;
        assert s[j + 1] == x;
      }
      var r := Filter(p, s);
      forall i, j | 0 <= i < j < |r| ensures rel(r[i], r[j]) {
        if p(s[0]) && i > 0 {
          assert r[i] == f[i - 1] && r[j] == f[j - 1];
        }
      }
    }
  }

  function Map<T(!new), U(!new)>(f: T -> U, s: seq<T>): (r: seq<U>)
    ensures |r| == |s|
    ensures forall i :: 0 <= i < |s| ==> r[i] == f(s[i])
  {
    seq(|s|, i requires 0 <= i < |s| => f(s[i]))
  }

  lemma MapCons<T(!new), U(!new)>(f: T -> U, x: T, s: seq<T>)
    ensures Map(f, [x] + s) == [f(x)] + Map(f, s)
  {
  }

  lemma MapSnoc<T(!new), U(!new)>(f: T -> U, s: seq<T>, i: nat)
    requires i < |s|
    ensures Map(f, s[..i + 1]) == Map(f, s[..i]) + [f(s[i])]
  {
    assert s[..i + 1] == s[..i] + [s[i]];
  }

  lemma MapHas<T(!new), U(!new)>(f: T -> U, s: seq<T>, x: T)
    requires x in s
    ensures f(x) in Map(f, s)
  {
    var i :| 0 <= i < |s| && s[i] == x;
    assert Map(f, s)[i] == f(x);
  }

  /** The concatenation of `f` over `s`. */
  function FlatMap<T(!new), U(!new)>(f: T -> seq<U>, s: seq<T>): seq<U> {
    if s == [] then [] else f(s[0]) + FlatMap(f, s[1..])
  }

  lemma {:induction false} FlatMapAppend<T(!new), U(!new)>(f: T -> seq<U>, a: seq<T>, b: seq<T>)
    ensures FlatMap(f, a + b) == FlatMap(f, a) + FlatMap(f, b)
  {
    if a == [] {
      assert a + b == b;
    } else {
      assert (a + b)[0] == a[0] && (a + b)[1..] == a[1..] + b;
      FlatMapAppend(f, a[1..], b);
    }
  }

  lemma FlatMapSnoc<T(!new), U(!new)>(f: T -> seq<U>, s: seq<T>, i: nat)
    requires i < |s|
    ensures FlatMap(f, s[..i + 1]) == FlatMap(f, s[..i]) + f(s[i])
  {
    assert s[..i + 1] == s[..i] + [s[i]];
    FlatMapAppend(f, s[..i], [s[i]]);
    assert FlatMap(f, [s[i]]) == f(s[i]) + FlatMap(f, []);
  }

  lemma {:induction false} FlatMapMembers<T(!new), U(!new)>(f: T -> seq<U>, s: seq<T>)
    ensures forall y :: y in FlatMap(f, s) <==> exists x :: x in s && y in f(x)
  {
    if s != [] {
      FlatMapMembers(f, s[1..]);
      forall y ensures y in FlatMap(f, s) <==> exists x :: x in s && y in f(x) {
        if x :| x in s && y in f(x) {
          assert x == s[0] || x in s[1..];
        }
        if y in FlatMap(f, s) && y !in f(s[0]) {
          assert y in FlatMap(f, s[1..]);
          var x :| x in s[1..] && y in f(x);
          assert x in s;
        }
      }
    }
  }
}
